/** JSON values as trees: their text, their tokens, and the tokenizer's run over the text. */
module Trees {
  import opened Json

  /** `raw` is the text between the quotes, escapes included. */
  datatype Tree =
    | Quoted(raw: string)
    | Plain(text: string)
    | List(items: seq<Tree>)
    | Record(members: seq<Member>)

  datatype Member = Member(key: string, val: Tree)

  // Text.

  function Render(t: Tree): (s: string)
    ensures |s| > 0 || t.Plain?
    decreases t, 0
  {
    match t
    case Quoted(raw) => "\"" + (raw + "\"")
    case Plain(text) => text
    case List(items) => "[" + (RenderItems(items) + "]")
    case Record(members) => "{" + (RenderMembers(members) + "}")
  }

  function RenderItems(items: seq<Tree>): string
    decreases items, 0
  {
    if items == [] then ""
    else Render(items[0]) + (if |items| == 1 then "" else ", " + RenderItems(items[1..]))
  }

  function RenderMember(m: Member): string
    decreases m, 0
  {
    "\"" + (m.key + ("\": " + Render(m.val)))
  }

  function RenderMembers(members: seq<Member>): string
    decreases members, 0
  {
    if members == [] then ""
    else RenderMember(members[0]) + (if |members| == 1 then "" else ", " + RenderMembers(members[1..]))
  }

  // Tokens.

  function Count(t: Tree): (n: nat)
    ensures n > 0
    decreases t, 0
  {
    match t
    case Quoted(_) => 1
    case Plain(_) => 1
    case List(items) => 1 + CountItems(items)
    case Record(members) => 1 + CountMembers(members)
  }

  function CountItems(items: seq<Tree>): nat
    decreases items, 0
  {
    if items == [] then 0 else Count(items[0]) + CountItems(items[1..])
  }

  function CountMembers(members: seq<Member>): nat
    decreases members, 0
  {
    if members == [] then 0 else 1 + Count(members[0].val) + CountMembers(members[1..])
  }

  /** The tokens of a value whose text starts at `pos` and whose first token has index `at`. */
  function Toks(t: Tree, pos: nat, at: nat, parent: int): (ts: seq<Tok>)
    ensures |ts| == Count(t)
    decreases t, 0
  {
    match t
    case Quoted(raw) => [Tok(Str, pos + 1, pos + 1 + |raw|, 0, parent)]
    case Plain(text) => [Tok(Primitive, pos, pos + |text|, 0, parent)]
    case List(items) => [Tok(Array, pos, pos + |Render(t)|, |items|, parent)] + ToksItems(items, pos + 1, at + 1, at)
    case Record(members) =>
      [Tok(Object, pos, pos + |Render(t)|, 2 * |members|, parent)] + ToksMembers(members, pos + 1, at + 1, at)
  }

  function ToksItems(items: seq<Tree>, pos: nat, at: nat, parent: int): (ts: seq<Tok>)
    ensures |ts| == CountItems(items)
    decreases items, 0
  {
    if items == [] then []
    else
      Toks(items[0], pos, at, parent)
      + ToksItems(items[1..], pos + |Render(items[0])| + 2, at + Count(items[0]), parent)
  }

  function ToksMembers(members: seq<Member>, pos: nat, at: nat, parent: int): (ts: seq<Tok>)
    ensures |ts| == CountMembers(members)
    decreases members, 0
  {
    if members == [] then []
    else
      var m := members[0];
      [Tok(Str, pos + 1, pos + 1 + |m.key|, 0, parent)]
      + (Toks(m.val, pos + |m.key| + 4, at + 1, parent)
         + ToksMembers(members[1..], pos + |RenderMember(m)| + 2, at + 1 + Count(m.val), parent))
  }

  // What may stand in a text.

  /** No quote ends the string early and no backslash escapes its closing quote. */
  predicate RawOk(raw: string) {
    if raw == "" then true
    else if raw[0] == '"' then false
    else if raw[0] == '\\' then |raw| > 1 && RawOk(raw[2..])
    else RawOk(raw[1..])
  }

  predicate TextOk(text: string) {
    && text != "" && (forall k :: 0 <= k < |text| ==> PrimitiveChar(text[k]))
    && text[0] != '{' && text[0] != '[' && text[0] != '"' && text[0] != ':'
  }

  predicate PrimitiveChar(c: char) {
    !IsDelimiter(c) && ' ' <= c < 127 as char
  }

  predicate Ok(t: Tree)
    decreases t, 0
  {
    match t
    case Quoted(raw) => RawOk(raw)
    case Plain(text) => TextOk(text)
    case List(items) => OkItems(items)
    case Record(members) => OkMembers(members)
  }

  predicate OkItems(items: seq<Tree>)
    decreases items, 0
  {
    items != [] ==> Ok(items[0]) && OkItems(items[1..])
  }

  predicate OkMembers(members: seq<Member>)
    decreases members, 0
  {
    members != [] ==> RawOk(members[0].key) && Ok(members[0].val) && OkMembers(members[1..])
  }

  /** A string ends at the first quote that no backslash hides. */
  lemma {:induction false} StringExact(js: string, p: nat, q: nat)
    requires p <= q < |js|
    ensures StringEnd(js, p) == q <==> js[q] == '"' && RawOk(js[p..q])
    decreases q - p
  {
    if p < q {
      assert js[p..q][1..] == js[p + 1..q];
      if js[p] == '\\' {
        if p + 2 <= q {
          assert js[p..q][2..] == js[p + 2..q];
          StringExact(js, p + 2, q);
        } else {
          EndsLater(js, p + 2);
        }
      } else {
        StringExact(js, p + 1, q);
      }
    }
  }

  lemma EndsLater(js: string, p: nat)
    ensures StringEnd(js, p) == -1 || StringEnd(js, p) >= p
  {
  }

  /** A primitive ends in front of the first delimiter, or with the text, if it holds printable
      ASCII characters only; otherwise it is an error. */
  lemma {:induction false} PrimitiveExact(js: string, p: nat, q: nat)
    requires p <= q <= |js|
    ensures PrimitiveEnd(js, p) == q
       <==> (q == |js| || IsDelimiter(js[q])) && forall k :: p <= k < q ==> PrimitiveChar(js[k])
    decreases q - p
  {
    if p < q && PrimitiveChar(js[p]) { PrimitiveExact(js, p + 1, q); }
  }

  /** The text `s` stands at `pos`. */
  predicate TextAt(js: string, pos: nat, s: string) {
    pos + |s| <= |js| && js[pos..pos + |s|] == s
  }

  lemma TextSplit(js: string, pos: nat, a: string, b: string)
    requires TextAt(js, pos, a + b)
    ensures TextAt(js, pos, a) && TextAt(js, pos + |a|, b)
  {
    assert (a + b)[..|a|] == a && (a + b)[|a|..] == b;
    assert js[pos..pos + |a + b|][..|a|] == js[pos..pos + |a|];
    assert js[pos..pos + |a + b|][|a|..] == js[pos + |a|..pos + |a| + |b|];
  }

  lemma TextHead(js: string, pos: nat, s: string)
    requires TextAt(js, pos, s) && s != ""
    ensures js[pos] == s[0]
  {
    assert js[pos..pos + |s|][0] == js[pos];
  }

  // The tokenizer over the text of a tree.

  lemma {:induction false} StringEnds(js: string, pos: nat, raw: string)
    requires RawOk(raw) && TextAt(js, pos, raw + "\"")
    ensures StringEnd(js, pos) == pos + |raw|
    decreases |raw|
  {
    var s := raw + "\"";
    TextHead(js, pos, s);
    if raw != "" {
      if raw[0] == '\\' {
        assert s == raw[..2] + (raw[2..] + "\"");
        TextSplit(js, pos, raw[..2], raw[2..] + "\"");
        StringEnds(js, pos + 2, raw[2..]);
      } else {
        assert s == raw[..1] + (raw[1..] + "\"");
        TextSplit(js, pos, raw[..1], raw[1..] + "\"");
        StringEnds(js, pos + 1, raw[1..]);
      }
    }
  }

  predicate Delimited(js: string, p: nat) {
    p == |js| || (p < |js| && IsDelimiter(js[p]))
  }

  lemma {:induction false} PrimitiveEnds(js: string, pos: nat, text: string)
    requires (forall k :: 0 <= k < |text| ==> PrimitiveChar(text[k])) && TextAt(js, pos, text)
             && Delimited(js, pos + |text|)
    ensures PrimitiveEnd(js, pos) == pos + |text|
    decreases |text|
  {
    if text != "" {
      TextHead(js, pos, text);
      assert PrimitiveChar(text[0]);
      assert text == text[..1] + text[1..];
      TextSplit(js, pos, text[..1], text[1..]);
      PrimitiveEnds(js, pos + 1, text[1..]);
    }
  }

  /** `n` more children. */
  function BumpBy(toks: seq<Tok>, super: int, n: nat): (r: seq<Tok>)
    ensures |r| == |toks|
  {
    if 0 <= super < |toks| then toks[super := toks[super].(size := toks[super].size + n)] else toks
  }

  /** The state after a piece of text that holds `n` values. */
  function Past(st: State, len: nat, n: nat, ts: seq<Tok>): State {
    State(st.pos + len, BumpBy(st.toks, st.super, n) + ts, st.super)
  }

  /** The scan passes over a piece of text, or runs out of tokens in it. */
  ghost predicate Passes(js: string, st: State, cap: nat, len: nat, n: nat, ts: seq<Tok>) {
    && st.pos + len <= |js|
    && (|st.toks| + |ts| <= cap ==> Scan(js, st, cap) == Scan(js, Past(st, len, n, ts), cap))
    && (|st.toks| + |ts| > cap ==> Scan(js, st, cap) == NoMemory)
  }

  predicate Good(st: State, cap: nat) {
    -1 <= st.super < |st.toks| <= cap
  }

  /** One piece of text after another. */
  lemma PassesBoth(js: string, st: State, cap: nat, len: nat, n: nat, ts: seq<Tok>, len': nat, n': nat, ts': seq<Tok>)
    requires Good(st, cap) && Passes(js, st, cap, len, n, ts)
    requires |st.toks| + |ts| <= cap ==> Passes(js, Past(st, len, n, ts), cap, len', n', ts')
    requires st.pos + len + len' <= |js|
    ensures Passes(js, st, cap, len + len', n + n', ts + ts')
  {
    hide Scan;
    var mid := Past(st, len, n, ts);
    assert Past(mid, len', n', ts') == Past(st, len + len', n + n', ts + ts') by {
      assert BumpBy(BumpBy(st.toks, st.super, n) + ts, st.super, n') + ts'
          == BumpBy(st.toks, st.super, n + n') + (ts + ts');
    }
  }

  /** A token that is closed at once. */
  lemma PassesLeaf(js: string, st: State, cap: nat, len: nat, t: Tok)
    requires Good(st, cap) && st.pos < |js| && st.pos + len <= |js|
    requires Advance(js, st, cap) == if |st.toks| >= cap then Stop(NoMemory)
                                     else Step(State(st.pos + len, Bump(st.toks, st.super) + [t], st.super))
    ensures Passes(js, st, cap, len, 1, [t])
  {
    hide Advance;
    assert Bump(st.toks, st.super) == BumpBy(st.toks, st.super, 1);
  }

  lemma {:induction false} PassesPunctuation(js: string, st: State, cap: nat, s: string)
    requires Good(st, cap) && TextAt(js, st.pos, s) && forall k :: 0 <= k < |s| ==> Skipped(s[k])
    ensures Passes(js, st, cap, |s|, 0, [])
    decreases |s|
  {
    if s == "" {
      assert BumpBy(st.toks, st.super, 0) + [] == st.toks;
    } else {
      TextHead(js, st.pos, s);
      assert s == s[..1] + s[1..];
      TextSplit(js, st.pos, s[..1], s[1..]);
      PassesPunctuation(js, st.(pos := st.pos + 1), cap, s[1..]);
      SkipsOne(js, st, cap);
      assert Past(st, |s|, 0, []) == Past(st.(pos := st.pos + 1), |s| - 1, 0, []);
    }
  }

  lemma PassesQuoted(js: string, st: State, cap: nat, raw: string)
    requires Good(st, cap) && RawOk(raw) && TextAt(js, st.pos, "\"" + (raw + "\""))
    ensures Passes(js, st, cap, |raw| + 2, 1, [Tok(Str, st.pos + 1, st.pos + 1 + |raw|, 0, st.super)])
  {
    hide StringEnd, RawOk, Scan, LastOpen, Passes, TextAt;
    var q := st.pos + 1 + |raw|;
    QuotedText(js, st.pos, raw, q);
    QuoteAdvances(js, st, cap, q);
    PassesLeaf(js, st, cap, |raw| + 2, Tok(Str, st.pos + 1, q, 0, st.super));
  }

  lemma QuotedText(js: string, pos: nat, raw: string, q: nat)
    requires RawOk(raw) && TextAt(js, pos, "\"" + (raw + "\"")) && q == pos + 1 + |raw|
    ensures q < |js| && js[pos] == '"' && StringEnd(js, pos + 1) == q
  {
    hide StringEnd, RawOk;
    TextHead(js, pos, "\"" + (raw + "\""));
    TextSplit(js, pos, "\"", raw + "\"");
    StringEnds(js, pos + 1, raw);
  }

  lemma QuoteAdvances(js: string, st: State, cap: nat, q: nat)
    requires st.pos < |js| && js[st.pos] == '"' && StringEnd(js, st.pos + 1) == q
    ensures Advance(js, st, cap) == if |st.toks| >= cap then Stop(NoMemory)
                                    else Step(State(q + 1, Bump(st.toks, st.super)
                                                    + [Tok(Str, st.pos + 1, q, 0, st.super)], st.super))
  {
    hide StringEnd, LastOpen;
  }

  predicate Closed(ts: seq<Tok>) {
    forall k :: 0 <= k < |ts| ==> ts[k].end != -1
  }

  lemma {:induction false} TreeClosed(t: Tree, pos: nat, at: nat, parent: int)
    ensures Closed(Toks(t, pos, at, parent))
    decreases t, 0
  {
    match t
    case List(items) => ItemsClosed(items, pos + 1, at + 1, at);
    case Record(members) => MembersClosed(members, pos + 1, at + 1, at);
    case _ =>
  }

  lemma {:induction false} ItemsClosed(items: seq<Tree>, pos: nat, at: nat, parent: int)
    ensures Closed(ToksItems(items, pos, at, parent))
    decreases items, 0
  {
    if items != [] {
      TreeClosed(items[0], pos, at, parent);
      ItemsClosed(items[1..], pos + |Render(items[0])| + 2, at + Count(items[0]), parent);
    }
  }

  lemma {:induction false} MembersClosed(members: seq<Member>, pos: nat, at: nat, parent: int)
    ensures Closed(ToksMembers(members, pos, at, parent))
    decreases members, 0
  {
    if members != [] {
      var m := members[0];
      TreeClosed(m.val, pos + |m.key| + 4, at + 1, parent);
      MembersClosed(members[1..], pos + |RenderMember(m)| + 2, at + 1 + Count(m.val), parent);
    }
  }

  /** A container: its opening, what is inside, its closing. */
  lemma PassesContainer(js: string, st: State, cap: nat, open: char, inside: string, n: nat, ts: seq<Tok>)
    requires Good(st, cap) && Opens(open) && Closed(ts)
    requires var close := if open == '{' then '}' else ']'; TextAt(js, st.pos, [open] + (inside + [close]))
    requires var kind := if open == '{' then Object else Array;
             |st.toks| < cap ==>
               Passes(js, State(st.pos + 1, Bump(st.toks, st.super) + [Tok(kind, st.pos, -1, 0, st.super)], |st.toks|),
                      cap, |inside|, n, ts)
    ensures var kind := if open == '{' then Object else Array;
            var whole := [Tok(kind, st.pos, st.pos + |inside| + 2, n, st.super)] + ts;
            Passes(js, st, cap, |inside| + 2, 1, whole)
  {
    hide Scan, LastOpen;
    var close := if open == '{' then '}' else ']';
    var kind := if open == '{' then Object else Array;
    var len := |inside| + 2;
    var whole := [Tok(kind, st.pos, st.pos + len, n, st.super)] + ts;
    TextHead(js, st.pos, [open] + (inside + [close]));
    TextSplit(js, st.pos, [open], inside + [close]);
    TextSplit(js, st.pos + 1, inside, [close]);
    TextHead(js, st.pos + 1 + |inside|, [close]);
    ScanStep(js, st, cap);
    if |st.toks| + |whole| <= cap {
      var at := |st.toks|;
      var st1 := State(st.pos + 1, Bump(st.toks, st.super) + [Tok(kind, st.pos, -1, 0, st.super)], at);
      var st2 := Past(st1, |inside|, n, ts);
      ScanStep(js, st2, cap);
      assert st2.toks[at] == Tok(kind, st.pos, -1, n, st.super);
      assert forall k :: at < k < |st2.toks| ==> st2.toks[k] == ts[k - at - 1];
      assert LastOpen(st2.toks) == at;
      assert st2.toks[at := st2.toks[at].(end := st2.pos + 1)] == BumpBy(st.toks, st.super, 1) + whole;
    }
  }

  lemma ScanStep(js: string, st: State, cap: nat)
    requires st.pos < |js|
    ensures Scan(js, st, cap) == if Advance(js, st, cap).Stop? then Advance(js, st, cap).r
                                 else Scan(js, Advance(js, st, cap).st, cap)
  {
  }

  lemma {:induction false} PassesTree(js: string, st: State, cap: nat, t: Tree)
    requires Good(st, cap) && Ok(t) && TextAt(js, st.pos, Render(t)) && Delimited(js, st.pos + |Render(t)|)
    ensures Passes(js, st, cap, |Render(t)|, 1, Toks(t, st.pos, |st.toks|, st.super))
    decreases t, 0
  {
    hide Scan, Passes, TextAt, RenderItems, RenderMembers, ToksItems, ToksMembers;
    match t
    case Quoted(raw) => PassesQuoted(js, st, cap, raw);
    case Plain(text) => PassesPlain(js, st, cap, text);
    case List(items) =>
      var at := |st.toks|;
      ItemsClosed(items, st.pos + 1, at + 1, at);
      if at < cap {
        Inside(js, st.pos, '[', RenderItems(items), ']');
        PassesItems(js, State(st.pos + 1, Bump(st.toks, st.super) + [Tok(Array, st.pos, -1, 0, st.super)], at), cap,
                    items);
      }
      PassesContainer(js, st, cap, '[', RenderItems(items), |items|, ToksItems(items, st.pos + 1, at + 1, at));
    case Record(members) =>
      var at := |st.toks|;
      MembersClosed(members, st.pos + 1, at + 1, at);
      if at < cap {
        Inside(js, st.pos, '{', RenderMembers(members), '}');
        PassesMembers(js, State(st.pos + 1, Bump(st.toks, st.super) + [Tok(Object, st.pos, -1, 0, st.super)], at), cap,
                      members);
      }
      PassesContainer(js, st, cap, '{', RenderMembers(members), 2 * |members|,
                      ToksMembers(members, st.pos + 1, at + 1, at));
  }

  lemma PassesPlain(js: string, st: State, cap: nat, text: string)
    requires Good(st, cap) && TextOk(text) && TextAt(js, st.pos, text) && Delimited(js, st.pos + |text|)
    ensures Passes(js, st, cap, |text|, 1, [Tok(Primitive, st.pos, st.pos + |text|, 0, st.super)])
  {
    hide PrimitiveEnd, Scan, LastOpen, Passes;
    TextHead(js, st.pos, text);
    PrimitiveEnds(js, st.pos, text);
    assert PrimitiveChar(text[0]);
    PassesLeaf(js, st, cap, |text|, Tok(Primitive, st.pos, st.pos + |text|, 0, st.super));
  }

  lemma Inside(js: string, pos: nat, open: char, inside: string, close: char)
    requires TextAt(js, pos, [open] + (inside + [close])) && Closes(close)
    ensures TextAt(js, pos + 1, inside) && Delimited(js, pos + 1 + |inside|)
  {
    TextSplit(js, pos, [open], inside + [close]);
    TextSplit(js, pos + 1, inside, [close]);
    TextHead(js, pos + 1 + |inside|, [close]);
  }

  lemma {:induction false} PassesItems(js: string, st: State, cap: nat, items: seq<Tree>)
    requires Good(st, cap) && OkItems(items) && TextAt(js, st.pos, RenderItems(items))
             && Delimited(js, st.pos + |RenderItems(items)|)
    ensures Passes(js, st, cap, |RenderItems(items)|, |items|, ToksItems(items, st.pos, |st.toks|, st.super))
    decreases items, 0
  {
    hide Scan, Passes, TextAt, Render, Toks, Ok, Delimited, Count, CountItems;
    if items == [] {
      Within(js, st.pos, "");
      PassesNothing(js, st, cap);
    } else {
      var first := Render(items[0]);
      var ts := Toks(items[0], st.pos, |st.toks|, st.super);
      var rest := items[1..];
      if |items| == 1 {
        assert first + "" == first && rest == [];
        PassesTree(js, st, cap, items[0]);
        assert ts + ToksItems(rest, st.pos + |first| + 2, |st.toks| + Count(items[0]), st.super) == ts;
      } else {
        var tail := RenderItems(rest);
        Separated(js, st.pos, first, ", ", tail);
        CommaDelimits(js, st.pos + |first|);
        PassesTree(js, st, cap, items[0]);
        var mid := Past(st, |first|, 1, ts);
        if |mid.toks| <= cap {
          PassesItems(js, mid.(pos := mid.pos + 2), cap, rest);
          AfterSeparator(js, mid, cap, ", ", |tail|, |rest|, ToksItems(rest, mid.pos + 2, |mid.toks|, st.super));
        }
        InText(js, st.pos, first, ", " + tail);
        PassesBoth(js, st, cap, |first|, 1, ts, 2 + |tail|, |rest|, ToksItems(rest, mid.pos + 2, |mid.toks|, st.super));
      }
    }
  }

  /** Two separating characters and what follows them. */
  lemma AfterSeparator(js: string, mid: State, cap: nat, sep: string, len: nat, n: nat, ts: seq<Tok>)
    requires Good(mid, cap) && TextAt(js, mid.pos, sep) && (sep == ", " || sep == ": ")
    requires Passes(js, mid.(pos := mid.pos + 2), cap, len, n, ts)
    ensures Passes(js, mid, cap, 2 + len, n, ts)
  {
    hide Scan, TextAt;
    PassesPunctuation(js, mid, cap, sep);
    var next := Past(mid, 2, 0, []);
    assert next == mid.(pos := mid.pos + 2) by { assert BumpBy(mid.toks, mid.super, 0) + [] == mid.toks; }
    PassesBoth(js, mid, cap, 2, 0, [], len, n, ts);
    assert [] + ts == ts;
  }

  lemma {:induction false} PassesMembers(js: string, st: State, cap: nat, members: seq<Member>)
    requires Good(st, cap) && OkMembers(members) && TextAt(js, st.pos, RenderMembers(members))
    requires Delimited(js, st.pos + |RenderMembers(members)|)
    ensures Passes(js, st, cap, |RenderMembers(members)|, 2 * |members|,
                   ToksMembers(members, st.pos, |st.toks|, st.super))
    decreases members, 0
  {
    hide Scan, Passes, TextAt, Render, RenderMember, Toks, Ok, Delimited, Count, CountMembers, MemberToks, RawOk;
    if members == [] {
      Within(js, st.pos, "");
      PassesNothing(js, st, cap);
    } else {
      var m := members[0];
      var first := RenderMember(m);
      var ts := MemberToks(m, st.pos, |st.toks|, st.super);
      var rest := members[1..];
      MembersHead(members, st.pos, |st.toks|, st.super);
      if |members| == 1 {
        assert first + "" == first && rest == [];
        PassesMember(js, st, cap, m);
        assert ts + ToksMembers(rest, st.pos + |first| + 2, |st.toks| + |ts|, st.super) == ts;
      } else {
        var tail := RenderMembers(rest);
        Separated(js, st.pos, first, ", ", tail);
        CommaDelimits(js, st.pos + |first|);
        PassesMember(js, st, cap, m);
        var mid := Past(st, |first|, 2, ts);
        var ts' := ToksMembers(rest, mid.pos + 2, |mid.toks|, st.super);
        if |mid.toks| <= cap {
          PassesMembers(js, mid.(pos := mid.pos + 2), cap, rest);
          AfterSeparator(js, mid, cap, ", ", |tail|, 2 * |rest|, ts');
        }
        InText(js, st.pos, first, ", " + tail);
        PassesBoth(js, st, cap, |first|, 2, ts, 2 + |tail|, 2 * |rest|, ts');
      }
    }
  }

  function MemberToks(m: Member, pos: nat, at: nat, parent: int): (ts: seq<Tok>)
    ensures |ts| == 1 + Count(m.val)
  {
    [Tok(Str, pos + 1, pos + 1 + |m.key|, 0, parent)] + Toks(m.val, pos + |m.key| + 4, at + 1, parent)
  }

  lemma MembersHead(members: seq<Member>, pos: nat, at: nat, parent: int)
    requires members != []
    ensures ToksMembers(members, pos, at, parent)
         == MemberToks(members[0], pos, at, parent)
            + ToksMembers(members[1..], pos + |RenderMember(members[0])| + 2, at + 1 + Count(members[0].val), parent)
  {
    hide Toks, RenderMember;
    var m := members[0];
    Assoc([Tok(Str, pos + 1, pos + 1 + |m.key|, 0, parent)], Toks(m.val, pos + |m.key| + 4, at + 1, parent),
          ToksMembers(members[1..], pos + |RenderMember(m)| + 2, at + 1 + Count(m.val), parent));
  }

  lemma Assoc(a: seq<Tok>, b: seq<Tok>, c: seq<Tok>)
    ensures a + (b + c) == (a + b) + c
  {
  }

  lemma CommaDelimits(js: string, pos: nat)
    requires TextAt(js, pos, ", ")
    ensures Delimited(js, pos)
  {
    TextHead(js, pos, ", ");
  }

  /** The quoted key, the colon and the value. */
  lemma {:induction false} PassesMember(js: string, st: State, cap: nat, m: Member)
    requires Good(st, cap) && RawOk(m.key) && Ok(m.val) && TextAt(js, st.pos, RenderMember(m))
    requires Delimited(js, st.pos + |RenderMember(m)|)
    ensures Passes(js, st, cap, |RenderMember(m)|, 2, MemberToks(m, st.pos, |st.toks|, st.super))
    decreases m, 1
  {
    hide Scan, Passes, TextAt, Render, Toks, Ok, RawOk, Delimited;
    var val := Render(m.val);
    var key := Tok(Str, st.pos + 1, st.pos + 1 + |m.key|, 0, st.super);
    MemberText(js, st.pos, m.key, val);
    PassesQuoted(js, st, cap, m.key);
    var mid := Past(st, |m.key| + 2, 1, [key]);
    if |mid.toks| <= cap {
      PassesTree(js, mid.(pos := mid.pos + 2), cap, m.val);
      AfterSeparator(js, mid, cap, ": ", |val|, 1, Toks(m.val, mid.pos + 2, |mid.toks|, st.super));
    }
    PassesBoth(js, st, cap, |m.key| + 2, 1, [key], 2 + |val|, 1,
               Toks(m.val, st.pos + |m.key| + 4, |st.toks| + 1, st.super));
  }

  lemma MemberText(js: string, pos: nat, key: string, val: string)
    requires TextAt(js, pos, "\"" + (key + ("\": " + val)))
    ensures TextAt(js, pos, "\"" + (key + "\"")) && TextAt(js, pos + |key| + 2, ": ")
            && TextAt(js, pos + |key| + 4, val)
    ensures pos + |key| + 4 + |val| <= |js|
  {
    var quoted := "\"" + (key + "\"");
    assert "\"" + (key + ("\": " + val)) == quoted + (": " + val);
    Separated(js, pos, quoted, ": ", val);
  }

  lemma PassesNothing(js: string, st: State, cap: nat)
    requires Good(st, cap) && st.pos <= |js|
    ensures Passes(js, st, cap, 0, 0, [])
  {
    assert BumpBy(st.toks, st.super, 0) + [] == st.toks;
  }

  lemma Separated(js: string, pos: nat, first: string, sep: string, tail: string)
    requires TextAt(js, pos, first + (sep + tail))
    ensures TextAt(js, pos, first) && TextAt(js, pos + |first|, sep) && TextAt(js, pos + |first| + |sep|, tail)
  {
    TextSplit(js, pos, first, sep + tail);
    TextSplit(js, pos + |first|, sep, tail);
  }

  lemma Within(js: string, pos: nat, s: string)
    requires TextAt(js, pos, s)
    ensures pos + |s| <= |js|
  {
  }

  lemma InText(js: string, pos: nat, a: string, b: string)
    requires TextAt(js, pos, a + b)
    ensures pos + |a| + |b| <= |js|
  {
  }

  /** Tokenizing the text of a tree gives the tokens of the tree, if they fit. */
  lemma TokenizesTree(t: Tree, cap: nat)
    requires Ok(t)
    ensures Tokenize(Render(t) + "\n", cap) == if Count(t) <= cap then Tokens(Toks(t, 0, 0, -1)) else NoMemory
  {
    hide Render, Toks, Ok, Passes;
    var js := Render(t) + "\n";
    var st := State(0, [], -1);
    assert TextAt(js, 0, Render(t));
    PassesTree(js, st, cap, t);
    var ts := Toks(t, 0, 0, -1);
    EndsScan(js, st, cap, |Render(t)|, ts);
    TreeClosed(t, 0, 0, -1);
  }

  /** After the tree only a newline is left. */
  lemma EndsScan(js: string, st: State, cap: nat, len: nat, ts: seq<Tok>)
    requires st == State(0, [], -1) && |js| == len + 1 && js[len] == '\n'
    requires Passes(js, st, cap, len, 1, ts)
    ensures if |ts| > cap then Scan(js, st, cap) == NoMemory
            else Closed(ts) ==> Scan(js, st, cap) == Tokens(ts)
  {
    if |ts| <= cap {
      var end := Past(st, len, 1, ts);
      assert end == State(len, ts, -1) by { assert [] + ts == ts; }
      ScanStep(js, end, cap);
      SkipsOne(js, end, cap);
    }
  }

  // Where the pieces of a tree lie among the tokens.

  /** The tokens from `i` on start at `p` or later. */
  predicate After(toks: seq<Tok>, i: nat, p: int) {
    i == |toks| || (i < |toks| && toks[i].start >= p)
  }

  /** The text and the tokens of a piece, and nothing of it in the tokens that follow. */
  predicate PieceAt(js: string, toks: seq<Tok>, text: string, ts: seq<Tok>, pos: nat, at: nat) {
    at + |ts| <= |toks| && toks[at..at + |ts|] == ts && TextAt(js, pos, text) && After(toks, at + |ts|, pos + |text|)
  }

  predicate TreeAt(js: string, toks: seq<Tok>, t: Tree, pos: nat, at: nat, parent: int) {
    PieceAt(js, toks, Render(t), Toks(t, pos, at, parent), pos, at)
  }

  predicate ItemsAt(js: string, toks: seq<Tok>, items: seq<Tree>, pos: nat, at: nat, parent: int) {
    items != [] ==> PieceAt(js, toks, RenderItems(items), ToksItems(items, pos, at, parent), pos, at)
  }

  predicate MembersAt(js: string, toks: seq<Tok>, members: seq<Member>, pos: nat, at: nat, parent: int) {
    members != [] ==> PieceAt(js, toks, RenderMembers(members), ToksMembers(members, pos, at, parent), pos, at)
  }

  lemma PieceSplit(js: string, toks: seq<Tok>, a: string, b: string, ts: seq<Tok>, ts': seq<Tok>, pos: nat, at: nat,
                   next: nat, i: nat)
    requires PieceAt(js, toks, a + (", " + b), ts + ts', pos, at)
    requires next == pos + |a| + 2 && i == at + |ts| && ts' != [] && ts'[0].start >= next
    ensures PieceAt(js, toks, a, ts, pos, at) && PieceAt(js, toks, b, ts', next, i)
  {
    hide TextAt;
    SliceSplit(toks, at, ts, ts');
    Separated(js, pos, a, ", ", b);
    assert toks[i] == toks[i..i + |ts'|][0];
  }

  lemma SliceSplit(toks: seq<Tok>, at: nat, a: seq<Tok>, b: seq<Tok>)
    requires at + |a| + |b| <= |toks| && toks[at..at + |a| + |b|] == a + b
    ensures toks[at..at + |a|] == a && toks[at + |a|..at + |a| + |b|] == b
  {
    assert (a + b)[..|a|] == a && (a + b)[|a|..] == b;
    assert toks[at..at + |a| + |b|][..|a|] == toks[at..at + |a|];
    assert toks[at..at + |a| + |b|][|a|..] == toks[at + |a|..at + |a| + |b|];
  }

  lemma FirstToken(t: Tree, pos: nat, at: nat, parent: int)
    ensures var ts := Toks(t, pos, at, parent);
            && pos <= ts[0].start && ts[0].parent == parent && ts[0].end <= pos + |Render(t)|
            && (ts[0].kind.Str? <==> t.Quoted?) && (ts[0].kind.Primitive? <==> t.Plain?)
            && (ts[0].kind.Array? <==> t.List?)
            && (t.List? ==> ts[0].size == |t.items|)
  {
    hide RenderItems, RenderMembers, ToksItems, ToksMembers;
  }

  lemma ItemsHead(js: string, toks: seq<Tok>, items: seq<Tree>, pos: nat, at: nat, parent: int, next: nat, i: nat)
    requires ItemsAt(js, toks, items, pos, at, parent) && items != []
    requires next == pos + |Render(items[0])| + 2 && i == at + Count(items[0])
    ensures TreeAt(js, toks, items[0], pos, at, parent)
    ensures ItemsAt(js, toks, items[1..], next, i, parent)
  {
    hide Render, Toks, Count, PieceAt;
    var first, rest := items[0], items[1..];
    var ts := Toks(first, pos, at, parent);
    if rest == [] {
      assert Render(first) + "" == Render(first);
      assert ts + ToksItems(rest, next, i, parent) == ts;
    } else {
      ItemsStart(rest, next, i, parent);
      PieceSplit(js, toks, Render(first), RenderItems(rest), ts, ToksItems(rest, next, i, parent), pos, at, next, i);
    }
  }

  lemma ItemsStart(items: seq<Tree>, pos: nat, at: nat, parent: int)
    requires items != []
    ensures var ts := ToksItems(items, pos, at, parent); ts != [] && ts[0].start >= pos
  {
    hide Toks;
    FirstToken(items[0], pos, at, parent);
  }

  lemma MembersFirst(js: string, toks: seq<Tok>, members: seq<Member>, pos: nat, at: nat, parent: int, next: nat,
                     i: nat)
    requires MembersAt(js, toks, members, pos, at, parent) && members != []
    requires next == pos + |RenderMember(members[0])| + 2 && i == at + 1 + Count(members[0].val)
    ensures PieceAt(js, toks, RenderMember(members[0]), MemberToks(members[0], pos, at, parent), pos, at)
    ensures MembersAt(js, toks, members[1..], next, i, parent)
  {
    hide RenderMember, MemberToks, ToksMembers, Count, PieceAt;
    var first, rest := members[0], members[1..];
    var ts := MemberToks(first, pos, at, parent);
    MembersHead(members, pos, at, parent);
    if rest == [] {
      assert RenderMember(first) + "" == RenderMember(first);
      assert ts + ToksMembers(rest, next, i, parent) == ts by { NoMembers(next, i, parent); }
    } else {
      MembersStart(rest, next, i, parent);
      PieceSplit(js, toks, RenderMember(first), RenderMembers(rest), ts, ToksMembers(rest, next, i, parent), pos, at,
                 next, i);
    }
  }

  lemma NoMembers(pos: nat, at: nat, parent: int)
    ensures ToksMembers([], pos, at, parent) == []
  {
  }

  lemma MembersStart(members: seq<Member>, pos: nat, at: nat, parent: int)
    requires members != []
    ensures var ts := ToksMembers(members, pos, at, parent); ts != [] && ts[0].start >= pos
  {
    hide Toks;
  }

  /** A key and its value. */
  lemma MemberSplit(js: string, toks: seq<Tok>, m: Member, pos: nat, at: nat, parent: int, valPos: nat)
    requires PieceAt(js, toks, RenderMember(m), MemberToks(m, pos, at, parent), pos, at) && valPos == pos + |m.key| + 4
    ensures toks[at] == Tok(Str, pos + 1, pos + 1 + |m.key|, 0, parent) && TextAt(js, pos + 1, m.key)
    ensures TreeAt(js, toks, m.val, valPos, at + 1, parent)
  {
    hide Render, Toks, Count, TextAt;
    var key, ts := [Tok(Str, pos + 1, pos + 1 + |m.key|, 0, parent)], Toks(m.val, valPos, at + 1, parent);
    SliceSplit(toks, at, key, ts);
    assert toks[at] == toks[at..at + 1][0];
    KeyText(js, pos, m.key, Render(m.val));
  }

  lemma KeyText(js: string, pos: nat, key: string, val: string)
    requires TextAt(js, pos, "\"" + (key + ("\": " + val)))
    ensures TextAt(js, pos + 1, key) && TextAt(js, pos + |key| + 4, val)
  {
    TextSplit(js, pos, "\"", key + ("\": " + val));
    TextSplit(js, pos + 1, key, "\": " + val);
    TextSplit(js, pos + 1 + |key|, "\": ", val);
  }

  /** Spans lie between `lo` and `hi`; parents are `parent` or among the tokens from `at` on. */
  predicate Spans(ts: seq<Tok>, lo: int, hi: int, at: int, parent: int) {
    forall k :: 0 <= k < |ts| ==> lo <= ts[k].start <= hi && (ts[k].parent == parent || ts[k].parent >= at)
  }

  lemma SpansJoin(a: seq<Tok>, b: seq<Tok>, lo: int, hi: int, at: int, parent: int, lo': int, hi': int, at': int)
    requires Spans(a, lo, hi', at, parent) && Spans(b, lo', hi, at', parent) && lo <= lo' && hi' <= hi && at <= at'
    ensures Spans(a + b, lo, hi, at, parent)
  {
  }

  /** Below its first token, a tree's tokens start inside the first and belong to the tree. */
  lemma {:induction false} TreeSpans(t: Tree, pos: nat, at: nat, parent: int)
    ensures var ts := Toks(t, pos, at, parent);
            Spans(ts, pos, pos + |Render(t)|, at, parent)
            && forall k :: 0 < k < |ts| ==> ts[k].parent >= at && pos <= ts[k].start < ts[0].end
    decreases t, 0
  {
    hide RenderItems, RenderMembers, ToksItems, ToksMembers;
    match t
    case List(items) => ItemsSpan(items, pos + 1, at + 1, at);
    case Record(members) => MembersSpan(members, pos + 1, at + 1, at);
    case _ =>
  }

  lemma {:induction false} ItemsSpan(items: seq<Tree>, pos: nat, at: nat, parent: int)
    ensures Spans(ToksItems(items, pos, at, parent), pos, pos + |RenderItems(items)|, at, parent)
    decreases items, 0
  {
    hide Render, Toks, Count, Spans;
    if items == [] {
      SpansNone(pos, at, parent);
    } else {
      var first, rest := items[0], items[1..];
      var next, i := pos + |Render(first)| + 2, at + Count(first);
      TreeSpans(first, pos, at, parent);
      if rest == [] {
        assert Toks(first, pos, at, parent) + ToksItems(rest, next, i, parent) == Toks(first, pos, at, parent);
      } else {
        ItemsSpan(rest, next, i, parent);
        SpansJoin(Toks(first, pos, at, parent), ToksItems(rest, next, i, parent), pos, pos + |RenderItems(items)|, at,
                  parent,
                  next, pos + |Render(first)|, i);
      }
    }
  }

  lemma SpansNone(pos: nat, at: nat, parent: int)
    ensures Spans([], pos, pos, at, parent)
  {
  }

  lemma {:induction false} MembersSpan(members: seq<Member>, pos: nat, at: nat, parent: int)
    ensures Spans(ToksMembers(members, pos, at, parent), pos, pos + |RenderMembers(members)|, at, parent)
    decreases members, 0
  {
    hide RenderMember, MemberToks, Count, Spans, ToksMembers;
    if members == [] {
      NoMembers(pos, at, parent);
      SpansNone(pos, at, parent);
    } else {
      var first, rest := members[0], members[1..];
      var next, i := pos + |RenderMember(first)| + 2, at + 1 + Count(first.val);
      MembersHead(members, pos, at, parent);
      MemberSpan(first, pos, at, parent);
      if rest == [] {
        NoMembers(next, i, parent);
        assert MemberToks(first, pos, at, parent) + [] == MemberToks(first, pos, at, parent);
      } else {
        MembersSpan(rest, next, i, parent);
        SpansJoin(MemberToks(first, pos, at, parent), ToksMembers(rest, next, i, parent), pos,
                  pos + |RenderMembers(members)|, at, parent,
                  next, pos + |RenderMember(first)|, i);
      }
    }
  }

  lemma {:induction false} MemberSpan(m: Member, pos: nat, at: nat, parent: int)
    ensures Spans(MemberToks(m, pos, at, parent), pos, pos + |RenderMember(m)|, at, parent)
    decreases m, 1
  {
    hide Render, Toks;
    TreeSpans(m.val, pos + |m.key| + 4, at + 1, parent);
  }

  // Going into a tree and past it.

  lemma OpenList(js: string, toks: seq<Tok>, items: seq<Tree>, pos: nat, at: nat, parent: int)
    requires TreeAt(js, toks, List(items), pos, at, parent)
    ensures toks[at] == Tok(Array, pos, pos + |Render(List(items))|, |items|, parent)
    ensures ItemsAt(js, toks, items, pos + 1, at + 1, at)
  {
    hide RenderItems, ToksItems, CountItems, TextAt;
    var first := Tok(Array, pos, pos + |Render(List(items))|, |items|, parent);
    SliceSplit(toks, at, [first], ToksItems(items, pos + 1, at + 1, at));
    assert toks[at] == toks[at..at + 1][0];
    Separated(js, pos, "[", RenderItems(items), "]");
  }

  lemma OpenRecord(js: string, toks: seq<Tok>, members: seq<Member>, pos: nat, at: nat, parent: int)
    requires TreeAt(js, toks, Record(members), pos, at, parent)
    ensures toks[at] == Tok(Object, pos, pos + |Render(Record(members))|, 2 * |members|, parent)
    ensures MembersAt(js, toks, members, pos + 1, at + 1, at)
    ensures After(toks, at + 1 + CountMembers(members), toks[at].end)
  {
    hide RenderMembers, ToksMembers, CountMembers, TextAt;
    var first := Tok(Object, pos, pos + |Render(Record(members))|, 2 * |members|, parent);
    SliceSplit(toks, at, [first], ToksMembers(members, pos + 1, at + 1, at));
    assert toks[at] == toks[at..at + 1][0];
    Separated(js, pos, "{", RenderMembers(members), "}");
  }

  /** A tree in the tokens: its first token, its text, and where it is skipped to. */
  lemma SkipsTree(js: string, toks: seq<Tok>, t: Tree, pos: nat, at: nat, parent: int)
    requires TreeAt(js, toks, t, pos, at, parent)
    ensures SkipFrom(toks, at, at + 1) == at + Count(t)
    ensures forall k :: at < k < at + Count(t) ==> toks[k].parent >= at && toks[k].start <= pos + |Render(t)|
  {
    hide Render, Toks, Count, TextAt;
    var ts := Toks(t, pos, at, parent);
    TreeSpans(t, pos, at, parent);
    FirstToken(t, pos, at, parent);
    forall k | at <= k < at + Count(t) ensures toks[k] == ts[k - at] {
      assert toks[at..at + Count(t)][k - at] == toks[k];
    }
    SkipsTo(toks, at, at + 1, at + Count(t));
  }

  lemma {:induction false} SkipsTo(toks: seq<Tok>, i: nat, j: nat, end: nat)
    requires i < j <= end <= |toks| && forall k :: j <= k < end ==> 0 <= toks[k].start < toks[i].end
    requires end == |toks| || toks[end].start >= toks[i].end
    ensures SkipFrom(toks, i, j) == end
    decreases end - j
  {
    if j < end { SkipsTo(toks, i, j + 1, end); }
  }
}
