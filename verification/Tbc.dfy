/** The `.tbc` file of the native toolchain: its writer, its reader, and what a
    program becomes when it is written and read again. */
module Tbc {
  import opened Syntax
  import J = Json
  import opened Trees
  import opened Numbers

  datatype Arg =
    | NoArg
    | Num(n: Number)
    | Text(s: string)
    | MakeFn(display: string, code: string, isAsync: bool)
    | TryArg(catchIp: int, finallyIp: int, catchName: string)

  datatype Instr = Instr(op: string, arg: Arg)

  datatype Function = Function(name: string, codeName: string, params: seq<string>, isAsync: bool, instrs: seq<Instr>)

  datatype Program = Program(entry: Function, functions: seq<Function>)

  // Text of numbers, booleans and strings.

  lemma NumberText(s: string)
    requires s != "" && ('0' <= s[0] <= '9' || s[0] == '-') && NumberChars(s)
    ensures TextOk(s) && s != "null" && s != "true" && s != "false"
  {
    forall k | 0 <= k < |s| ensures PrimitiveChar(s[k]) { assert NumberChar(s[k]); }
  }

  lemma FormattedOk(n: Number)
    ensures TextOk(Formatted(n)) && Formatted(n) != "null" && Formatted(n) != "true" && Formatted(n) != "false"
  {
    FormattedText(n);
    hide Formatted;
    NumberText(Formatted(n));
  }

  lemma DecimalOk(n: int)
    ensures TextOk(Decimal(n)) && Decimal(n) != "null"
  {
    DecimalText(n);
    hide Decimal;
    NumberText(Decimal(n));
  }

  function Bool(b: bool): string {
    if b then "true" else "false"
  }

  function Escaped(s: string): string {
    if s == "" then "" else EscapedChar(s[0]) + Escaped(s[1..])
  }

  function EscapedChar(c: char): string {
    if c == '"' || c == '\\' then ['\\', c]
    else if c == '\n' then "\\n"
    else if c == '\r' then "\\r"
    else if c == '\t' then "\\t"
    else [c]
  }

  predicate NeedsEscape(c: char) {
    c == '"' || c == '\\' || c == '\n' || c == '\r' || c == '\t'
  }

  predicate PlainText(s: string) {
    forall k :: 0 <= k < |s| ==> !NeedsEscape(s[k])
  }

  lemma {:induction false} EscapedOk(s: string)
    ensures RawOk(Escaped(s))
    decreases |s|
  {
    if s != "" {
      EscapedOk(s[1..]);
      var e := EscapedChar(s[0]);
      assert |e| == 1 || (|e| == 2 && e[0] == '\\');
      assert Escaped(s)[|e|..] == Escaped(s[1..]);
    }
  }

  lemma {:induction false} EscapedSame(s: string)
    ensures Escaped(s) == s <==> PlainText(s)
    ensures |Escaped(s)| >= |s|
    decreases |s|
  {
    if s != "" {
      EscapedSame(s[1..]);
      var e := EscapedChar(s[0]);
      assert s == [s[0]] + s[1..];
      if |e| == 1 {
        assert e == [s[0]];
        assert Escaped(s)[1..] == Escaped(s[1..]);
        assert PlainText(s) <==> PlainText(s[1..]) by {
          if PlainText(s[1..]) { assert forall k :: 1 <= k < |s| ==> s[k] == s[1..][k - 1]; }
        }
      } else {
        assert |Escaped(s)| > |s|;
        assert NeedsEscape(s[0]);
      }
    }
  }

  /** A text without characters to escape is the escaped form of itself only. */
  lemma {:induction false} EscapedIs(s: string, plain: string)
    requires PlainText(plain)
    ensures Escaped(s) == plain <==> s == plain
    decreases |s|
  {
    EscapedSame(plain);
    if Escaped(s) == plain && s != "" {
      var e := EscapedChar(s[0]);
      assert Escaped(s)[0] == e[0];
      assert !NeedsEscape(plain[0]);
      assert e == [s[0]];
      assert Escaped(s)[1..] == Escaped(s[1..]);
      assert PlainText(plain[1..]);
      EscapedIs(s[1..], plain[1..]);
      assert s == [s[0]] + s[1..] && plain == [plain[0]] + plain[1..];
    }
  }

  /** What the text between the quotes stands for (section 7 of RFC 8259), without `\u`. */
  function Unescaped(raw: string): Option<string> {
    if raw == "" then Some("")
    else if raw[0] == '\\' then
      if |raw| == 1 then None
      else
        var c := Meant(raw[1]);
        var rest := Unescaped(raw[2..]);
        if c.None? || rest.None? then None else Some([c.value] + rest.value)
    else
      var rest := Unescaped(raw[1..]);
      if raw[0] == '"' || raw[0] < ' ' || rest.None? then None else Some([raw[0]] + rest.value)
  }

  /** The character a backslash and a letter stand for. */
  function Meant(letter: char): Option<char> {
    match letter
    case '"' => Some('"')
    case '\\' => Some('\\')
    case '/' => Some('/')
    case 'b' => Some(8 as char)
    case 'f' => Some(12 as char)
    case 'n' => Some(10 as char)
    case 'r' => Some(13 as char)
    case 't' => Some(9 as char)
    case _ => None
  }

  /** No control character but the three that are escaped. */
  predicate Printable(s: string) {
    forall k :: 0 <= k < |s| ==> s[k] >= ' ' || s[k] == '\n' || s[k] == '\r' || s[k] == '\t'
  }

  /** The escaped form of a text stands for that text, unless it holds a control character that
      the writer leaves as it is; then it is no text at all. */
  lemma {:induction false} EscapedMeans(s: string)
    ensures Unescaped(Escaped(s)) == if Printable(s) then Some(s) else None
    decreases |s|
  {
    if s != "" {
      EscapedMeans(s[1..]);
      var e, rest := EscapedChar(s[0]), Escaped(s[1..]);
      assert Escaped(s) == e + rest && (e + rest)[|e|..] == rest;
      assert s == [s[0]] + s[1..];
      assert Printable(s) <==> (s[0] >= ' ' || s[0] == '\n' || s[0] == '\r' || s[0] == '\t') && Printable(s[1..]) by {
        if Printable(s[1..]) { assert forall k :: 1 <= k < |s| ==> s[k] == s[1..][k - 1]; }
      }
    }
  }

  // The tree of a program.

  function ArgTree(a: Arg): Tree {
    match a
    case NoArg => Plain("null")
    case Num(n) => Plain(Formatted(n))
    case Text(s) => Quoted(Escaped(s))
    case MakeFn(display, code, isAsync) => List([Quoted(Escaped(display)), Quoted(Escaped(code)), Plain(Bool(isAsync))])
    case TryArg(c, f, name) =>
      Record([Member("catch_ip", Plain(Decimal(c))), Member("finally_ip", Plain(Decimal(f))),
              Member("catch_name", Quoted(Escaped(name)))])
  }

  function InstrTree(i: Instr): Tree {
    Record([Member("op", Quoted(Escaped(i.op))), Member("arg", ArgTree(i.arg))])
  }

  function InstrTrees(instrs: seq<Instr>): (ts: seq<Tree>)
    ensures |ts| == |instrs|
  {
    seq(|instrs|, k requires 0 <= k < |instrs| => InstrTree(instrs[k]))
  }

  function ParamTrees(params: seq<string>): (ts: seq<Tree>)
    ensures |ts| == |params|
  {
    seq(|params|, k requires 0 <= k < |params| => Quoted(Escaped(params[k])))
  }

  function FunctionTree(f: Function): Tree {
    Record([Member("name", Quoted(Escaped(f.name))), Member("params", List(ParamTrees(f.params))),
            Member("is_async", Plain(Bool(f.isAsync))), Member("instructions", List(InstrTrees(f.instrs)))])
  }

  function FunctionMembers(fs: seq<Function>): (ms: seq<Member>)
    ensures |ms| == |fs|
  {
    seq(|fs|, k requires 0 <= k < |fs| => Member(Escaped(fs[k].codeName), FunctionTree(fs[k])))
  }

  function ProgramTree(p: Program): Tree {
    Record([Member("entry", FunctionTree(p.entry)), Member("functions", Record(FunctionMembers(p.functions)))])
  }

  // Text in the order it is written.

  lemma Cat(a: string, b: string, c: string)
    ensures a + (b + c) == (a + b) + c
  {
  }

  lemma Cat5(a: string, b: string, c: string, d: string, e: string, f: string)
    ensures a + (b + (c + (d + (e + f)))) == a + b + c + d + e + f
  {
    Cat(a, b, c + (d + (e + f)));
    Cat(a + b, c, d + (e + f));
    Cat(a + b + c, d, e + f);
    Cat(a + b + c + d, e, f);
  }

  lemma EscapeStep(s: string, k: nat)
    requires k < |s|
    ensures Escaped(s[k..]) == EscapedChar(s[k]) + Escaped(s[k + 1..])
  {
    assert s[k..][1..] == s[k + 1..];
  }

  lemma EscapeEnd(s: string)
    ensures Escaped(s[|s|..]) == ""
  {
  }

  lemma Cat7(was: string, a: string, b: string, c: string, d: string, e: string, f: string, g: string)
    ensures was + (a + (b + (c + (d + (e + (f + g)))))) == was + a + b + c + d + e + f + g
  {
    Cat(was, a, b + (c + (d + (e + (f + g)))));
    Cat(was + a, b, c + (d + (e + (f + g))));
    Cat5(was + a + b, c, d, e, f, g);
  }

  lemma NoMembersText(members: seq<Member>, start: string)
    ensures start + RenderMembers(members[..0]) == start
  {
    assert members[..0] == [];
  }

  lemma NoItemsText(items: seq<Tree>, start: string)
    ensures start + RenderItems(items[..0]) == start
  {
    assert items[..0] == [];
  }

  lemma ParamAt(params: seq<string>, k: nat)
    requires k < |params|
    ensures ParamTrees(params)[k] == Quoted(Escaped(params[k]))
  {
  }

  lemma InstrAt(instrs: seq<Instr>, k: nat)
    requires k < |instrs|
    ensures InstrTrees(instrs)[k] == InstrTree(instrs[k])
  {
    hide InstrTree;
  }

  lemma EntryOf(fs: seq<Function>, k: nat)
    requires k < |fs|
    ensures FunctionMembers(fs)[k] == Member(Escaped(fs[k].codeName), FunctionTree(fs[k]))
  {
    hide Escaped, FunctionTree;
  }

  lemma Cat9(was: string, a: string, b: string, c: string, d: string, e: string, f: string, g: string, h: string,
             i: string)
    ensures was + (a + (b + (c + (d + (e + (f + (g + (h + i)))))))) == was + a + b + c + d + e + f + g + h + i
  {
    Cat(was, a, b + (c + (d + (e + (f + (g + (h + i)))))));
    Cat(was + a, b, c + (d + (e + (f + (g + (h + i))))));
    Cat(was + a + b, c, d + (e + (f + (g + (h + i)))));
    Cat(was + a + b + c, d, e + (f + (g + (h + i))));
    Cat5(was + a + b + c + d, e, f, g, h, i);
  }

  /** The text of members, each key in one piece with what comes before it. */
  function Flat(pre: string, members: seq<Member>, tail: string): string
    requires members != []
    decreases |members|
  {
    var m := members[0];
    (pre + "\"" + m.key + "\": ") + (Render(m.val) + (if |members| == 1 then tail else Flat(", ", members[1..], tail)))
  }

  lemma {:induction false} FlatIs(pre: string, members: seq<Member>, tail: string)
    requires members != []
    ensures pre + (RenderMembers(members) + tail) == Flat(pre, members, tail)
    decreases |members|
  {
    hide Render;
    var m := members[0];
    var v := Render(m.val);
    var rest := if |members| == 1 then tail else ", " + (RenderMembers(members[1..]) + tail);
    if |members| == 1 {
      assert RenderMembers(members) == RenderMember(m) by { assert RenderMember(m) + "" == RenderMember(m); }
    } else {
      FlatIs(", ", members[1..], tail);
      Cat(", ", RenderMembers(members[1..]), tail);
      Cat(RenderMember(m), ", " + RenderMembers(members[1..]), tail);
    }
    assert RenderMembers(members) + tail == RenderMember(m) + rest;
    MemberFlat(pre, m.key, v, rest);
  }

  lemma MemberFlat(pre: string, key: string, v: string, rest: string)
    ensures pre + (("\"" + (key + ("\": " + v))) + rest) == (pre + "\"" + key + "\": ") + (v + rest)
  {
    Cat("\": ", v, rest);
    Cat(key, "\": " + v, rest);
    Cat("\"", key + ("\": " + v), rest);
    Cat(pre, "\"", key + ("\": " + (v + rest)));
    Cat(pre + "\"", key, "\": " + (v + rest));
    Cat(pre + "\"" + key, "\": ", v + rest);
  }

  lemma RecordFlat(members: seq<Member>)
    requires members != []
    ensures Render(Record(members)) == Flat("{", members, "}")
  {
    FlatIs("{", members, "}");
  }

  lemma FlatTwo(pre: string, a: Member, b: Member, tail: string)
    ensures Flat(pre, [a, b], tail)
         == (pre + "\"" + a.key + "\": ") + (Render(a.val) + ((", " + "\"" + b.key + "\": ") + (Render(b.val) + tail)))
  {
    hide Render;
    assert [a, b][1..] == [b];
  }

  lemma ListText(before: string, items: seq<Tree>, after: string)
    ensures before + (Render(List(items)) + after) == (before + "[") + (RenderItems(items) + ("]" + after))
  {
    hide RenderItems;
    Cat("[", RenderItems(items) + "]", after);
    Cat(RenderItems(items), "]", after);
    Cat(before, "[", RenderItems(items) + ("]" + after));
  }

  /** The pieces the writer puts in front of a key. */
  lemma Prefixes()
    ensures ", " + "\"" + "instructions" + "\": " == ", \"instructions\": "
    ensures ", " + "\"" + "params" + "\": " == ", \"params\": "
    ensures ", " + "\"" + "is_async" + "\": " == ", \"is_async\": "
    ensures "{" + "\"" + "name" + "\": " == "{\"name\": "
    ensures ", \"params\": " + "[" == ", \"params\": ["
    ensures ", \"instructions\": " + "[" == ", \"instructions\": ["
    ensures "]" + ", \"is_async\": " == "], \"is_async\": "
    ensures "]" + "}" == "]}"
    ensures "{" + "\"" + "catch_ip" + "\": " == "{\"catch_ip\": "
    ensures ", " + "\"" + "finally_ip" + "\": " == ", \"finally_ip\": "
    ensures ", " + "\"" + "catch_name" + "\": " == ", \"catch_name\": "
  {
    HandlerPrefixes();
    FunctionPrefixes();
  }

  lemma HandlerPrefixes()
    ensures "{" + "\"" + "catch_ip" + "\": " == "{\"catch_ip\": "
    ensures ", " + "\"" + "finally_ip" + "\": " == ", \"finally_ip\": "
    ensures ", " + "\"" + "catch_name" + "\": " == ", \"catch_name\": "
  {
  }

  lemma FunctionPrefixes()
    ensures ", " + "\"" + "instructions" + "\": " == ", \"instructions\": "
    ensures ", " + "\"" + "params" + "\": " == ", \"params\": "
    ensures ", " + "\"" + "is_async" + "\": " == ", \"is_async\": "
    ensures "{" + "\"" + "name" + "\": " == "{\"name\": "
  {
  }

  lemma FlatFirst(pre: string, members: seq<Member>, rest: seq<Member>, tail: string)
    requires |members| > 1 && rest == members[1..]
    ensures Flat(pre, members, tail)
         == (pre + "\"" + members[0].key + "\": ") + (Render(members[0].val) + Flat(", ", rest, tail))
  {
    hide Render;
  }

  lemma FunctionText(f: Function)
    ensures Render(FunctionTree(f))
         == "{\"name\": " + (Render(Quoted(Escaped(f.name)))
                             + (", \"params\": [" + (RenderItems(ParamTrees(f.params))
                                                     + ("], \"is_async\": " + (Bool(f.isAsync)
                                                                               + (", \"instructions\": ["
                                                                                  + (RenderItems(InstrTrees(f.instrs))
                                                                                     + "]}")))))))
  {
    hide RenderItems, RenderMembers, RenderMember, Render, Escaped, Bool, Flat, ParamTrees, InstrTrees;
    var name, params := Member("name", Quoted(Escaped(f.name))), Member("params", List(ParamTrees(f.params)));
    var isAsync, instrs := Member("is_async", Plain(Bool(f.isAsync))),
                           Member("instructions", List(InstrTrees(f.instrs)));
    RecordFlat([name, params, isAsync, instrs]);
    FlatFirst("{", [name, params, isAsync, instrs], [params, isAsync, instrs], "}");
    FlatFirst(", ", [params, isAsync, instrs], [isAsync, instrs], "}");
    FlatTwo(", ", isAsync, instrs, "}");
    var afterParams := Flat(", ", [isAsync, instrs], "}");
    ListText(", \"instructions\": ", InstrTrees(f.instrs), "}");
    ListText(", \"params\": ", ParamTrees(f.params), afterParams);
    Prefixes();
    PlainIs(Bool(f.isAsync));
    Cat("]", ", \"is_async\": ", Bool(f.isAsync)
        + (", \"instructions\": [" + (RenderItems(InstrTrees(f.instrs)) + "]}")));
  }

  lemma PlainIs(s: string)
    ensures Render(Plain(s)) == s
  {
  }

  lemma InstrText(i: Instr)
    ensures Render(InstrTree(i)) == "{\"op\": "
                                    + (Render(Quoted(Escaped(i.op))) + (", \"arg\": " + (Render(ArgTree(i.arg)) + "}")))
  {
    hide Render, RenderMembers, RenderMember, Escaped;
    RecordFlat([Member("op", Quoted(Escaped(i.op))), Member("arg", ArgTree(i.arg))]);
    FlatTwo("{", Member("op", Quoted(Escaped(i.op))), Member("arg", ArgTree(i.arg)), "}");
  }

  lemma TryText(c: int, f: int, name: string)
    ensures Render(ArgTree(TryArg(c, f, name)))
         == "{\"catch_ip\": " + (Decimal(c)
                                 + (", \"finally_ip\": " + (Decimal(f)
                                                            + (", \"catch_name\": " + (Render(Quoted(Escaped(name)))
                                                                                       + "}")))))
  {
    hide RenderMembers, RenderMember, Render, Escaped, Decimal, Flat;
    var a, b, d := Member("catch_ip", Plain(Decimal(c))), Member("finally_ip", Plain(Decimal(f))),
                   Member("catch_name", Quoted(Escaped(name)));
    RecordFlat([a, b, d]);
    FlatFirst("{", [a, b, d], [b, d], "}");
    FlatTwo(", ", b, d, "}");
    Prefixes();
    PlainIs(Decimal(c));
    PlainIs(Decimal(f));
  }

  lemma ThreeText(a: Tree, b: Tree, c: Tree)
    ensures Render(List([a, b, c])) == "[" + (Render(a) + (", " + (Render(b) + (", " + (Render(c) + "]")))))
  {
    var x, y, z := Render(a), Render(b), Render(c);
    assert [a, b, c][1..] == [b, c] && [b, c][1..] == [c];
    assert RenderItems([c]) == z by { assert z + "" == z; }
    assert RenderItems([b, c]) == y + (", " + z);
    assert RenderItems([a, b, c]) == x + (", " + (y + (", " + z)));
    hide Render, RenderItems;
    Cat(x, ", " + (y + (", " + z)), "]");
    Cat(", ", y + (", " + z), "]");
    Cat(y, ", " + z, "]");
    Cat(", ", z, "]");
  }

  lemma ProgramPrefixes()
    ensures "{" + "\"" + "entry" + "\": " == "{\"entry\": "
    ensures ", " + "\"" + "functions" + "\": " == ", \"functions\": "
    ensures "}" + "}" == "}}" && ", \"functions\": " + "{" == ", \"functions\": {" && "}}" + "\n" == "}}\n"
  {
  }

  lemma ProgramText(p: Program)
    ensures Render(ProgramTree(p)) + "\n"
         == "{\"entry\": " + (Render(FunctionTree(p.entry))
                              + (", \"functions\": {" + (RenderMembers(FunctionMembers(p.functions)) + "}}\n")))
  {
    var ms := FunctionMembers(p.functions);
    var e, fs := Member("entry", FunctionTree(p.entry)), Member("functions", Record(ms));
    var entry, inner := Render(FunctionTree(p.entry)), RenderMembers(ms);
    assert Render(Record(ms)) == "{" + (inner + "}");
    hide Render, RenderMembers, RenderMember, FunctionTree, FunctionMembers;
    RecordFlat([e, fs]);
    FlatTwo("{", e, fs, "}");
    ProgramPrefixes();
    Cat("{", inner + "}", "}");
    Cat(inner, "}", "}");
    Cat(", \"functions\": ", "{", inner + "}}");
    Cat("{\"entry\": ", entry + (", \"functions\": {" + (inner + "}}")), "\n");
    Cat(entry, ", \"functions\": {" + (inner + "}}"), "\n");
    Cat(", \"functions\": {", inner + "}}", "\n");
    Cat(inner, "}}", "\n");
  }

  function Separator(k: nat): string {
    if k == 0 then "" else ", "
  }

  lemma SnocCat(start: string, x: string, sep: string, r: string)
    ensures start + (x + sep + r) == start + x + sep + r
  {
  }

  lemma {:induction false} RenderSnoc(items: seq<Tree>, k: nat)
    requires k < |items|
    ensures RenderItems(items[..k + 1]) == RenderItems(items[..k]) + Separator(k) + Render(items[k])
    decreases k
  {
    hide Render;
    if k == 0 {
      assert items[..1] == [items[0]] && items[..0] == [];
      assert Render(items[0]) + "" == Render(items[0]) && "" + "" + Render(items[0]) == Render(items[0]);
    } else {
      var rest := items[1..];
      assert items[..k + 1][1..] == rest[..k] && items[..k][1..] == rest[..k - 1];
      RenderSnoc(rest, k - 1);
      SnocStep(Render(items[0]), RenderItems(rest[..k - 1]), Render(items[k]), k == 1);
    }
  }

  lemma SnocStep(first: string, middle: string, last: string, one: bool)
    requires one ==> middle == ""
    ensures first + (", " + (middle + (if one then "" else ", ") + last))
         == first + (if one then "" else ", " + middle) + ", " + last
  {
    var a := first + (", " + (middle + (if one then "" else ", ") + last));
    var b := first + (if one then "" else ", " + middle) + ", " + last;
    if one {
      assert middle + "" + last == last && first + "" == first;
      Cat(first, ", ", last);
    } else {
      Cat(first, ", ", middle + ", " + last);
      Cat(first + ", ", middle + ", ", last);
      Cat(first + ", ", middle, ", ");
      Cat(first, ", ", middle);
    }
  }

  lemma {:induction false} RenderMembersSnoc(members: seq<Member>, k: nat)
    requires k < |members|
    ensures RenderMembers(members[..k + 1]) == RenderMembers(members[..k]) + Separator(k) + RenderMember(members[k])
    decreases k
  {
    hide RenderMember;
    if k == 0 {
      assert members[..1] == [members[0]] && members[..0] == [];
      var first := RenderMember(members[0]);
      assert first + "" == first && "" + "" + first == first;
    } else {
      var rest := members[1..];
      assert members[..k + 1][1..] == rest[..k] && members[..k][1..] == rest[..k - 1];
      RenderMembersSnoc(rest, k - 1);
      SnocStep(RenderMember(members[0]), RenderMembers(rest[..k - 1]), RenderMember(members[k]), k == 1);
    }
  }

  // The writer.

  class Writer {
    var out: string

    constructor ()
      ensures out == ""
    {
      out := "";
    }

    method Put(s: string)
      modifies this
      ensures out == old(out) + s
    {
      out := out + s;
    }

    method WriteString(s: string)
      modifies this
      ensures out == old(out) + Render(Quoted(Escaped(s)))
    {
      hide Escaped;
      Put("\"");
      ghost var start := out;
      assert s[0..] == s;
      for k := 0 to |s|
        invariant start + Escaped(s) == out + Escaped(s[k..])
      {
        ghost var before := out;
        EscapeStep(s, k);
        if s[k] == '"' || s[k] == '\\' {
          Put("\\");
          Put([s[k]]);
          assert out == before + ['\\', s[k]];
        } else if s[k] == '\n' {
          Put("\\n");
        } else if s[k] == '\r' {
          Put("\\r");
        } else if s[k] == '\t' {
          Put("\\t");
        } else {
          Put([s[k]]);
        }
        assert out == before + EscapedChar(s[k]);
        Cat(before, EscapedChar(s[k]), Escaped(s[k + 1..]));
      }
      EscapeEnd(s);
      assert out + "" == out;
      Put("\"");
      Cat(old(out), "\"", Escaped(s) + "\"");
      Cat(old(out) + "\"", Escaped(s), "\"");
      Cat(start, Escaped(s), "\"");
    }

    method WriteArg(a: Arg)
      modifies this
      ensures out == old(out) + Render(ArgTree(a))
    {
      match a {
        case NoArg => Put("null");
        case Num(n) => Put(Formatted(n));
        case Text(s) => WriteString(s);
        case MakeFn(display, code, isAsync) =>
          ghost var was := out;
          Put("[");
          WriteString(display);
          Put(", ");
          WriteString(code);
          Put(", ");
          Put(Bool(isAsync));
          Put("]");
          ghost var d, e := Quoted(Escaped(display)), Quoted(Escaped(code));
          ThreeText(d, e, Plain(Bool(isAsync)));
          Cat7(was, "[", Render(d), ", ", Render(e), ", ", Bool(isAsync), "]");
        case TryArg(c, f, name) =>
          ghost var was := out;
          Put("{\"catch_ip\": ");
          Put(Decimal(c));
          Put(", \"finally_ip\": ");
          Put(Decimal(f));
          Put(", \"catch_name\": ");
          WriteString(name);
          Put("}");
          TryText(c, f, name);
          Cat7(was, "{\"catch_ip\": ", Decimal(c), ", \"finally_ip\": ", Decimal(f), ", \"catch_name\": ",
               Render(Quoted(Escaped(name))), "}");
      }
    }

    method WriteFunction(f: Function)
      modifies this
      ensures out == old(out) + Render(FunctionTree(f))
    {
      hide Render, RenderItems, Escaped;
      ghost var was := out;
      Put("{\"name\": ");
      WriteString(f.name);
      Put(", \"params\": [");
      WriteParams(f.params);
      Put("], \"is_async\": ");
      Put(Bool(f.isAsync));
      Put(", \"instructions\": [");
      WriteInstrs(f.instrs);
      Put("]}");
      FunctionText(f);
      Cat9(was, "{\"name\": ", Render(Quoted(Escaped(f.name))), ", \"params\": [", RenderItems(ParamTrees(f.params)),
           "], \"is_async\": ",
           Bool(f.isAsync), ", \"instructions\": [", RenderItems(InstrTrees(f.instrs)), "]}");
    }

    method PutSeparator(k: nat)
      modifies this
      ensures out == old(out) + Separator(k)
    {
      if k > 0 { Put(", "); } else { assert out + "" == out; }
    }

    method WriteParams(params: seq<string>)
      modifies this
      ensures out == old(out) + RenderItems(ParamTrees(params))
    {
      hide Render, RenderItems, ParamTrees, Escaped, Separator;
      ghost var ts := ParamTrees(params);
      ghost var start := out;
      NoItemsText(ts, start);
      for k := 0 to |params|
        invariant out == start + RenderItems(ts[..k])
      {
        RenderSnoc(ts, k);
        ParamAt(params, k);
        PutSeparator(k);
        WriteString(params[k]);
        SnocCat(start, RenderItems(ts[..k]), Separator(k), Render(ts[k]));
      }
      assert ts[..|params|] == ts;
    }

    method WriteInstrs(instrs: seq<Instr>)
      modifies this
      ensures out == old(out) + RenderItems(InstrTrees(instrs))
    {
      hide Render, RenderItems, InstrTrees, InstrTree, Separator;
      ghost var ts := InstrTrees(instrs);
      ghost var start := out;
      NoItemsText(ts, start);
      for k := 0 to |instrs|
        invariant out == start + RenderItems(ts[..k])
      {
        RenderSnoc(ts, k);
        InstrAt(instrs, k);
        PutSeparator(k);
        WriteInstr(instrs[k]);
        SnocCat(start, RenderItems(ts[..k]), Separator(k), Render(ts[k]));
      }
      assert ts[..|instrs|] == ts;
    }

    method WriteInstr(i: Instr)
      modifies this
      ensures out == old(out) + Render(InstrTree(i))
    {
      hide Render, Escaped;
      ghost var was := out;
      Put("{\"op\": ");
      WriteString(i.op);
      Put(", \"arg\": ");
      WriteArg(i.arg);
      Put("}");
      InstrText(i);
      Cat5(was, "{\"op\": ", Render(Quoted(Escaped(i.op))), ", \"arg\": ", Render(ArgTree(i.arg)), "}");
    }

    method WriteEntry(f: Function)
      modifies this
      ensures out == old(out) + RenderMember(Member(Escaped(f.codeName), FunctionTree(f)))
    {
      hide Escaped, FunctionTree;
      ghost var was := out;
      WriteString(f.codeName);
      Put(": ");
      WriteFunction(f);
      ghost var key, val := Escaped(f.codeName), Render(FunctionTree(f));
      assert "\"" + (key + ("\": " + val)) == ("\"" + (key + "\"")) + ": " + val;
    }

    method WriteFunctions(fs: seq<Function>)
      modifies this
      ensures out == old(out) + RenderMembers(FunctionMembers(fs))
    {
      hide RenderMember, RenderMembers, FunctionTree, FunctionMembers, Escaped, Separator;
      ghost var ms := FunctionMembers(fs);
      ghost var start := out;
      NoMembersText(ms, start);
      for k := 0 to |fs|
        invariant out == start + RenderMembers(ms[..k])
      {
        RenderMembersSnoc(ms, k);
        EntryOf(fs, k);
        PutSeparator(k);
        WriteEntry(fs[k]);
        SnocCat(start, RenderMembers(ms[..k]), Separator(k), RenderMember(ms[k]));
      }
      assert ms[..|fs|] == ms;
    }

    method WriteProgram(p: Program)
      modifies this
      ensures out == old(out) + (Render(ProgramTree(p)) + "\n")
    {
      hide Render, RenderMembers, FunctionTree, FunctionMembers;
      ghost var was := out;
      Put("{\"entry\": ");
      WriteFunction(p.entry);
      Put(", \"functions\": {");
      WriteFunctions(p.functions);
      Put("}}\n");
      ProgramText(p);
      Cat5(was, "{\"entry\": ", Render(FunctionTree(p.entry)), ", \"functions\": {",
           RenderMembers(FunctionMembers(p.functions)), "}}\n");
    }
  }

  // The reader. None is where the native runtime stops with a fatal error.

  function TextOf(js: string, t: J.Tok): string {
    if 0 <= t.start <= t.end <= |js| then js[t.start..t.end] else ""
  }

  /** The index after the first string under `obj` that equals `key`, whether that
      string is a key or a value; -1 if there is none. */
  function Lookup(js: string, toks: seq<J.Tok>, obj: nat, key: string, i: nat): (r: int)
    requires obj < |toks|
    ensures r == -1 || i < r <= |toks|
    decreases |toks| - i
  {
    if i >= |toks| || toks[i].start >= toks[obj].end then -1
    else if toks[i].parent == obj && toks[i].kind.Str? && TextOf(js, toks[i]) == key then i + 1
    else Lookup(js, toks, obj, key, i + 1)
  }

  method ObjGet(js: string, toks: seq<J.Tok>, obj: nat, key: string) returns (r: int)
    requires obj < |toks|
    ensures r == Lookup(js, toks, obj, key, obj + 1)
  {
    var end := toks[obj].end;
    var i := obj + 1;
    while i < |toks|
      invariant obj < i <= |toks|
      invariant Lookup(js, toks, obj, key, i) == Lookup(js, toks, obj, key, obj + 1)
    {
      if toks[i].start >= end { return -1; }
      if toks[i].parent == obj && toks[i].kind.Str? && TextOf(js, toks[i]) == key { return i + 1; }
      i := i + 1;
    }
    r := -1;
  }

  function SkipTok(toks: seq<J.Tok>, i: nat): nat {
    if i < |toks| then J.SkipFrom(toks, i, i + 1) else i + 1
  }

  function ReadNumber(js: string, t: J.Tok): Option<int> {
    NumberOf(TextOf(js, t))
  }

  /** An address: `null` stands for -1. */
  function ReadAddress(js: string, toks: seq<J.Tok>, i: int): Option<int>
    requires i < |toks|
  {
    if i < 0 then Some(-1)
    else if toks[i].kind.Primitive? && TextOf(js, toks[i]) == "null" then Some(-1)
    else ReadNumber(js, toks[i])
  }

  /** The argument of LOAD_CONST; booleans become 1 and 0. */
  function ReadConst(js: string, t: J.Tok): Option<Arg> {
    var text := TextOf(js, t);
    if t.kind.Str? then Some(Text(text))
    else if t.kind.Primitive? then
      if text == "null" then Some(NoArg)
      else if text == "true" then Some(Num(1))
      else if text == "false" then Some(Num(0))
      else
        var n := Gapless(NumberOf(text));
        if n.Some? then Some(Num(n.value)) else None
    else None
  }

  function ReadArg(js: string, toks: seq<J.Tok>, i: nat): Option<Arg>
    requires i < |toks|
  {
    var t := toks[i];
    match t.kind
    case Primitive =>
      if TextOf(js, t) == "null" then Some(NoArg)
      else
        var n := Gapless(ReadNumber(js, t));
        if n.Some? then Some(Num(n.value)) else None
    case Str => Some(Text(TextOf(js, t)))
    case Array => ReadMakeFn(js, toks, i)
    case Object => ReadTry(js, toks, i)
  }

  function ReadMakeFn(js: string, toks: seq<J.Tok>, i: nat): Option<Arg>
    requires i < |toks|
  {
    if toks[i].size < 2 then Some(NoArg)
    else
      var p0 := i + 1;
      var p1 := SkipTok(toks, p0);
      var p2 := SkipTok(toks, p1);
      if p1 >= |toks| || p0 >= |toks| then None
      else
        var isAsync := p2 < SkipTok(toks, i) && p2 < |toks| && toks[p2].kind.Primitive?
                       && TextOf(js, toks[p2]) == "true";
        Some(MakeFn(TextOf(js, toks[p0]), TextOf(js, toks[p1]), isAsync))
  }

  function ReadTry(js: string, toks: seq<J.Tok>, i: nat): Option<Arg>
    requires i < |toks|
  {
    var c, f, n := Lookup(js, toks, i, "catch_ip", i + 1), Lookup(js, toks, i, "finally_ip", i + 1),
                   Lookup(js, toks, i, "catch_name", i + 1);
    if c >= |toks| || f >= |toks| || n >= |toks| then None
    else
      var catchIp, finallyIp := ReadAddress(js, toks, c), ReadAddress(js, toks, f);
      if catchIp.None? || finallyIp.None? then None
      else Some(TryArg(catchIp.value, finallyIp.value, if n >= 0 && toks[n].kind.Str? then TextOf(js, toks[n]) else ""))
  }

  function ReadInstr(js: string, toks: seq<J.Tok>, i: nat): Option<Instr>
    requires i < |toks|
  {
    var op, arg := Lookup(js, toks, i, "op", i + 1), Lookup(js, toks, i, "arg", i + 1);
    if op < 0 || op >= |toks| || arg >= |toks| then None
    else
      var name := TextOf(js, toks[op]);
      var a := if arg < 0 then Some(NoArg)
               else if name == "LOAD_CONST" then ReadConst(js, toks[arg])
               else ReadArg(js, toks, arg);
      if a.Some? then Some(Instr(name, a.value)) else None
  }

  function ReadInstrs(js: string, toks: seq<J.Tok>, i: nat, n: nat): Option<seq<Instr>>
    decreases n
  {
    if n == 0 then Some([])
    else if i >= |toks| then None
    else
      var first := ReadInstr(js, toks, i);
      if first.None? then None
      else
        var rest := ReadInstrs(js, toks, SkipTok(toks, i), n - 1);
        if rest.None? then None else Some([first.value] + rest.value)
  }

  function ReadParams(js: string, toks: seq<J.Tok>, i: nat, n: nat): Option<seq<string>>
    decreases n
  {
    if n == 0 then Some([])
    else if i >= |toks| then None
    else
      var rest := ReadParams(js, toks, SkipTok(toks, i), n - 1);
      if rest.None? then None else Some([TextOf(js, toks[i])] + rest.value)
  }

  function ReadFunction(js: string, toks: seq<J.Tok>, i: nat, codeName: string): Option<Function>
    requires i < |toks|
  {
    var name, params := Lookup(js, toks, i, "name", i + 1), Lookup(js, toks, i, "params", i + 1);
    var isAsync, instrs := Lookup(js, toks, i, "is_async", i + 1), Lookup(js, toks, i, "instructions", i + 1);
    if name < 0 || params < 0 || isAsync < 0 || instrs < 0 then None
    else if name >= |toks| || params >= |toks| || isAsync >= |toks| || instrs >= |toks| then None
    else if !toks[params].kind.Array? || !toks[instrs].kind.Array? || toks[params].size < 0 || toks[instrs].size < 0
    then None
    else
      var ps := ReadParams(js, toks, params + 1, toks[params].size);
      var code := ReadInstrs(js, toks, instrs + 1, toks[instrs].size);
      if ps.None? || code.None? then None
      else Some(Function(TextOf(js, toks[name]), codeName, ps.value, TextOf(js, toks[isAsync]) == "true", code.value))
  }

  /** The functions whose keys are the strings under token `obj`, from `i` on. */
  function ReadFunctions(js: string, toks: seq<J.Tok>, obj: nat, i: nat): Option<seq<Function>>
    requires obj < |toks|
    decreases |toks| - i
  {
    if i >= |toks| || toks[i].start >= toks[obj].end then Some([])
    else if toks[i].parent == obj && toks[i].kind.Str? then
      if i + 1 >= |toks| then None
      else
        var first := ReadFunction(js, toks, i + 1, TextOf(js, toks[i]));
        if first.None? then None
        else
          var rest := ReadFunctions(js, toks, obj, i + 1);
          if rest.None? then None else Some([first.value] + rest.value)
    else ReadFunctions(js, toks, obj, i + 1)
  }

  function ReadTokens(js: string, toks: seq<J.Tok>): Option<Program> {
    if toks == [] || !toks[0].kind.Object? then None
    else
      var entry, fns := Lookup(js, toks, 0, "entry", 1), Lookup(js, toks, 0, "functions", 1);
      if entry < 0 || fns < 0 || entry >= |toks| || fns >= |toks| then None
      else
        var e := ReadFunction(js, toks, entry, "__entry__");
        if e.None? || !toks[fns].kind.Object? then None
        else
          var fs := ReadFunctions(js, toks, fns, fns + 1);
          if fs.None? then None else Some(Program(e.value, fs.value))
  }

  function Read(js: string, cap: nat): Option<Program> {
    var r := J.Tokenize(js, cap);
    if r.Tokens? then ReadTokens(js, r.toks) else None
  }

  // The reader as it is written.

  method ParseParams(js: string, toks: seq<J.Tok>, start: nat, n: nat) returns (r: Option<seq<string>>)
    ensures r == ReadParams(js, toks, start, n)
  {
    var params: seq<string> := [];
    var i: nat := start;
    BeforeNothing(ReadParams(js, toks, start, n));
    for k := 0 to n
      invariant |params| == k
      invariant ReadParams(js, toks, start, n) == Before(params, ReadParams(js, toks, i, n - k))
    {
      if i >= |toks| { return None; }
      BeforeTwice(params, TextOf(js, toks[i]), ReadParams(js, toks, SkipTok(toks, i), n - k - 1));
      params := params + [TextOf(js, toks[i])];
      i := J.TokSkip(toks, i);
    }
    r := Some(params);
    assert params + [] == params;
  }

  function Before<T>(xs: seq<T>, r: Option<seq<T>>): Option<seq<T>> {
    if r.Some? then Some(xs + r.value) else None
  }

  lemma BeforeTwice<T>(xs: seq<T>, x: T, r: Option<seq<T>>)
    ensures Before(xs + [x], r) == Before(xs, Before([x], r))
  {
    if r.Some? { assert xs + [x] + r.value == xs + ([x] + r.value); }
  }

  lemma BeforeNothing<T>(r: Option<seq<T>>)
    ensures Before([], r) == r
  {
    if r.Some? { assert [] + r.value == r.value; }
  }

  method ParseInstr(js: string, toks: seq<J.Tok>, i: nat) returns (r: Option<Instr>)
    requires i < |toks|
    ensures r == ReadInstr(js, toks, i)
  {
    hide Lookup;
    var op := ObjGet(js, toks, i, "op");
    var arg := ObjGet(js, toks, i, "arg");
    if op < 0 || op >= |toks| || arg >= |toks| { return None; }
    var name := TextOf(js, toks[op]);
    var a := if arg < 0 then Some(NoArg) else if name == "LOAD_CONST" then ReadConst(js, toks[arg])
    else ReadArg(js, toks, arg);
    r := if a.Some? then Some(Instr(name, a.value)) else None;
  }

  method ParseInstrs(js: string, toks: seq<J.Tok>, start: nat, n: nat) returns (r: Option<seq<Instr>>)
    ensures r == ReadInstrs(js, toks, start, n)
  {
    hide ReadInstr;
    var instrs: seq<Instr> := [];
    var i: nat := start;
    BeforeNothing(ReadInstrs(js, toks, start, n));
    for k := 0 to n
      invariant |instrs| == k
      invariant ReadInstrs(js, toks, start, n) == Before(instrs, ReadInstrs(js, toks, i, n - k))
    {
      if i >= |toks| { return None; }
      var instr := ParseInstr(js, toks, i);
      if instr.None? { return None; }
      BeforeTwice(instrs, instr.value, ReadInstrs(js, toks, SkipTok(toks, i), n - k - 1));
      instrs := instrs + [instr.value];
      i := J.TokSkip(toks, i);
    }
    r := Some(instrs);
    assert instrs + [] == instrs;
  }

  method ParseFunction(js: string, toks: seq<J.Tok>, i: nat, codeName: string) returns (r: Option<Function>)
    requires i < |toks|
    ensures r == ReadFunction(js, toks, i, codeName)
  {
    hide Lookup, ReadParams, ReadInstrs;
    var name := ObjGet(js, toks, i, "name");
    var params := ObjGet(js, toks, i, "params");
    var isAsync := ObjGet(js, toks, i, "is_async");
    var instrs := ObjGet(js, toks, i, "instructions");
    if name < 0 || params < 0 || isAsync < 0 || instrs < 0 { return None; }
    if name >= |toks| || params >= |toks| || isAsync >= |toks| || instrs >= |toks| { return None; }
    if !toks[params].kind.Array? || !toks[instrs].kind.Array? || toks[params].size < 0 || toks[instrs].size < 0 {
      return None;
    }
    var ps := ParseParams(js, toks, params + 1, toks[params].size);
    if ps.None? { return None; }
    var code := ParseInstrs(js, toks, instrs + 1, toks[instrs].size);
    if code.None? { return None; }
    r := Some(Function(TextOf(js, toks[name]), codeName, ps.value, TextOf(js, toks[isAsync]) == "true", code.value));
  }

  method ParseFunctions(js: string, toks: seq<J.Tok>, obj: nat) returns (r: Option<seq<Function>>)
    requires obj < |toks|
    ensures r == ReadFunctions(js, toks, obj, obj + 1)
  {
    hide ReadFunction;
    var fs: seq<Function> := [];
    var i: nat := obj + 1;
    BeforeNothing(ReadFunctions(js, toks, obj, obj + 1));
    while i < |toks| && toks[i].start < toks[obj].end
      invariant i <= |toks|
      invariant ReadFunctions(js, toks, obj, obj + 1) == Before(fs, ReadFunctions(js, toks, obj, i))
    {
      if toks[i].parent == obj && toks[i].kind.Str? {
        if i + 1 >= |toks| { return None; }
        var f := ParseFunction(js, toks, i + 1, TextOf(js, toks[i]));
        if f.None? { return None; }
        BeforeTwice(fs, f.value, ReadFunctions(js, toks, obj, i + 1));
        fs := fs + [f.value];
      }
      i := i + 1;
    }
    r := Some(fs);
    assert fs + [] == fs;
  }

  /** Reads a program from its text, with room for `cap` tokens. */
  method ParseProgram(js: string, cap: nat) returns (r: Option<Program>)
    ensures r == Read(js, cap)
  {
    hide Lookup, ReadFunction, ReadFunctions;
    var tokens := new J.Tok[cap](_ => J.Tok(J.Primitive, -1, -1, 0, -1));
    var parser := new J.Tokenizer(js, tokens);
    var n := parser.Parse();
    if n < 0 { return None; }
    var toks := tokens[..n];
    if n == 0 || !toks[0].kind.Object? { return None; }
    var entry := ObjGet(js, toks, 0, "entry");
    var fns := ObjGet(js, toks, 0, "functions");
    if entry < 0 || fns < 0 || entry >= |toks| || fns >= |toks| { return None; }
    var e := ParseFunction(js, toks, entry, "__entry__");
    if e.None? || !toks[fns].kind.Object? { return None; }
    var fs := ParseFunctions(js, toks, fns);
    r := if fs.None? then None else Some(Program(e.value, fs.value));
  }

  // What is read back from what was written.

  function EscapedAll(ss: seq<string>): seq<string> {
    if ss == [] then [] else [Escaped(ss[0])] + EscapedAll(ss[1..])
  }

  function ArgBack(op: string, a: Arg): Option<Arg> {
    match a
    case NoArg => Some(a)
    case Num(n) => Some(Num(Back(n)))
    case Text(s) => Some(Text(Escaped(s)))
    case MakeFn(display, code, isAsync) =>
      if op == "LOAD_CONST" then None else Some(MakeFn(Escaped(display), Escaped(code), isAsync))
    case TryArg(c, f, name) => if op == "LOAD_CONST" then None else Some(TryArg(c, f, Escaped(name)))
  }

  /** An opcode `arg` is taken for the key of the argument. */
  function InstrBack(i: Instr): Option<Instr> {
    if i.op == "arg" then Some(Instr("arg", Text("arg")))
    else
      var a := ArgBack(i.op, i.arg);
      if a.Some? then Some(Instr(Escaped(i.op), a.value)) else None
  }

  function InstrsBack(instrs: seq<Instr>): Option<seq<Instr>> {
    if instrs == [] then Some([])
    else
      var first := InstrBack(instrs[0]);
      if first.None? then None
      else
        var rest := InstrsBack(instrs[1..]);
        if rest.None? then None else Some([first.value] + rest.value)
  }

  /** A display name that is a later field name is taken for that field. */
  function FunctionBack(f: Function, codeName: string): Option<Function> {
    if f.name == "params" || f.name == "instructions" then None
    else
      var instrs := InstrsBack(f.instrs);
      if instrs.None? then None
      else Some(Function(Escaped(f.name), codeName, EscapedAll(f.params), f.isAsync && f.name != "is_async",
                         instrs.value))
  }

  function FunctionsBack(fs: seq<Function>): Option<seq<Function>> {
    if fs == [] then Some([])
    else
      var first := FunctionBack(fs[0], Escaped(fs[0].codeName));
      if first.None? then None
      else
        var rest := FunctionsBack(fs[1..]);
        if rest.None? then None else Some([first.value] + rest.value)
  }

  function ProgramBack(p: Program): Option<Program> {
    var e := FunctionBack(p.entry, "__entry__");
    if e.None? then None
    else
      var fs := FunctionsBack(p.functions);
      if fs.None? then None else Some(Program(e.value, fs.value))
  }

  // Finding keys.

  /** Where a key is found among members whose first token has index `i`. */
  function Find(members: seq<Member>, key: string, i: nat): int {
    if members == [] then -1
    else if members[0].key == key then i + 1
    else if members[0].val == Quoted(key) then i + 2
    else Find(members[1..], key, i + 1 + Count(members[0].val))
  }

  lemma {:induction false} LookupSkips(js: string, toks: seq<J.Tok>, obj: nat, key: string, i: nat, j: nat)
    requires obj < |toks| && i <= j <= |toks|
    requires forall k :: i <= k < j ==>
                           toks[k].start < toks[obj].end && !(toks[k].parent == obj && toks[k].kind.Str?
                                                              && TextOf(js, toks[k]) == key)
    ensures Lookup(js, toks, obj, key, i) == Lookup(js, toks, obj, key, j)
    decreases j - i
  {
    if i < j { LookupSkips(js, toks, obj, key, i + 1, j); }
  }

  lemma QuotedToken(js: string, pos: nat, raw: string, size: int, parent: int)
    requires TextAt(js, pos, raw)
    ensures TextOf(js, J.Tok(J.Str, pos, pos + |raw|, size, parent)) == raw
  {
  }

  /** A value is looked at only if it is a string. */
  lemma LookupValue(js: string, toks: seq<J.Tok>, obj: nat, key: string, t: Tree, pos: nat, at: nat)
    requires obj < at && TreeAt(js, toks, t, pos, at, obj) && pos + |Render(t)| < toks[obj].end
    ensures Lookup(js, toks, obj, key, at) == if t == Quoted(key) then at + 1
                                              else Lookup(js, toks, obj, key, at + Count(t))
  {
    hide Lookup, Render, Toks, Count;
    FirstIs(js, toks, t, pos, at, obj);
    SkipsTree(js, toks, t, pos, at, obj);
    if t == Quoted(key) {
      LookupHere(js, toks, obj, key, at);
    } else {
      InRange(js, toks, t, pos, at, obj);
      LookupSkips(js, toks, obj, key, at, at + Count(t));
    }
  }

  lemma LookupHere(js: string, toks: seq<J.Tok>, obj: nat, key: string, i: nat)
    requires obj < |toks| && i < |toks| && toks[i].start < toks[obj].end
    requires toks[i].parent == obj && toks[i].kind.Str? && TextOf(js, toks[i]) == key
    ensures Lookup(js, toks, obj, key, i) == i + 1
  {
  }

  lemma InRange(js: string, toks: seq<J.Tok>, t: Tree, pos: nat, at: nat, parent: int)
    requires TreeAt(js, toks, t, pos, at, parent)
    ensures at + Count(t) <= |toks|
  {
  }

  /** The first token of a tree, and its text if it is a leaf. */
  lemma FirstIs(js: string, toks: seq<J.Tok>, t: Tree, pos: nat, at: nat, parent: int)
    requires TreeAt(js, toks, t, pos, at, parent)
    ensures at < |toks| && toks[at].parent == parent && pos <= toks[at].start <= pos + |Render(t)|
    ensures (toks[at].kind.Str? <==> t.Quoted?) && (toks[at].kind.Primitive? <==> t.Plain?)
            && (toks[at].kind.Array? <==> t.List?)
    ensures t.Quoted? ==> TextOf(js, toks[at]) == t.raw
    ensures t.Plain? ==> TextOf(js, toks[at]) == t.text
    ensures t.List? ==> toks[at].size == |t.items|
  {
    hide RenderItems, RenderMembers, ToksItems, ToksMembers, CountItems, CountMembers;
    FirstToken(t, pos, at, parent);
    assert toks[at] == toks[at..at + Count(t)][0];
    if t.Quoted? { Separated(js, pos, "\"", t.raw, "\""); }
  }

  /** One member: its key, its value, then the members after it. */
  lemma LookupMember(js: string, toks: seq<J.Tok>, obj: nat, key: string, m: Member, keyPos: nat, valPos: nat, i: nat,
                     j: nat)
    requires obj < i < |toks| && toks[i].parent == obj && toks[i].kind.Str? && TextOf(js, toks[i]) == m.key
             && toks[i].start == keyPos
    requires TreeAt(js, toks, m.val, valPos, i + 1, obj) && j == i + 1 + Count(m.val)
    requires keyPos < toks[obj].end && valPos + |Render(m.val)| < toks[obj].end
    ensures j <= |toks|
    ensures Lookup(js, toks, obj, key, i)
         == if m.key == key then i + 1 else if m.val == Quoted(key) then i + 2 else Lookup(js, toks, obj, key, j)
  {
    hide Lookup, Render, Toks, Count, TreeAt;
    InRange(js, toks, m.val, valPos, i + 1, obj);
    if m.key == key {
      LookupHere(js, toks, obj, key, i);
    } else {
      LookupSkips(js, toks, obj, key, i, i + 1);
      LookupValue(js, toks, obj, key, m.val, valPos, i + 1);
    }
  }

  lemma {:induction false} LookupMembers(js: string, toks: seq<J.Tok>, obj: nat, key: string,
                                         members: seq<Member>, pos: nat, i: nat, end: nat)
    requires obj < i && obj < |toks| && MembersAt(js, toks, members, pos, i, obj)
    requires members != [] ==> pos + |RenderMembers(members)| < toks[obj].end
    requires end == i + CountMembers(members) && After(toks, end, toks[obj].end)
    ensures Lookup(js, toks, obj, key, i) == Find(members, key, i)
    decreases |members|
  {
    hide Lookup, Render, RenderMember, RenderMembers, MemberToks, Toks, Count, CountMembers, PieceAt, TreeAt, MembersAt,
      TextAt, TextOf, Find;
    FindIs(members, key, i);
    if members == [] {
      CountNoMembers();
      LookupEnds(js, toks, obj, key, i);
    } else {
      var m := members[0];
      var rest := members[1..];
      var next, j, valPos := pos + |RenderMember(m)| + 2, i + 1 + Count(m.val), pos + |m.key| + 4;
      MembersFirst(js, toks, members, pos, i, obj, next, j);
      MemberSplit(js, toks, m, pos, i, obj, valPos);
      QuotedToken(js, pos + 1, m.key, 0, obj);
      Lengths(members, m, rest);
      KeyInRange(js, toks, m.val, valPos, i + 1, obj);
      LookupMember(js, toks, obj, key, m, pos + 1, valPos, i, j);
      LookupMembers(js, toks, obj, key, rest, next, j, end);
    }
  }

  lemma FindIs(members: seq<Member>, key: string, i: nat)
    ensures Find(members, key, i)
         == if members == [] then -1 else if members[0].key == key then i + 1 else if members[0].val == Quoted(key)
            then i + 2
            else Find(members[1..], key, i + 1 + Count(members[0].val))
  {
    hide Count;
  }

  lemma CountNoMembers()
    ensures CountMembers([]) == 0
  {
  }

  lemma LookupEnds(js: string, toks: seq<J.Tok>, obj: nat, key: string, i: nat)
    requires obj < |toks| && After(toks, i, toks[obj].end)
    ensures Lookup(js, toks, obj, key, i) == -1
  {
  }

  lemma Lengths(members: seq<Member>, m: Member, rest: seq<Member>)
    requires members != [] && m == members[0] && rest == members[1..]
    ensures |RenderMember(m)| == |m.key| + 4 + |Render(m.val)| <= |RenderMembers(members)|
    ensures rest != [] ==> |RenderMembers(members)| == |RenderMember(m)| + 2 + |RenderMembers(rest)|
    ensures CountMembers(members) == 1 + Count(m.val) + CountMembers(rest)
  {
    hide Render, Count;
  }

  /** Looking a key up in a record. */
  lemma LookupRecord(js: string, toks: seq<J.Tok>, key: string, members: seq<Member>, pos: nat, at: nat, parent: int)
    requires TreeAt(js, toks, Record(members), pos, at, parent)
    ensures at < |toks| && Lookup(js, toks, at, key, at + 1) == Find(members, key, at + 1)
  {
    hide RenderMembers, ToksMembers, CountMembers, Lookup;
    OpenRecord(js, toks, members, pos, at, parent);
    assert |Render(Record(members))| == |RenderMembers(members)| + 2;
    LookupMembers(js, toks, at, key, members, pos + 1, at + 1, at + 1 + CountMembers(members));
  }

  // Reading what was written, from the leaves up.

  /** The first member of a record: its value, and the members after it. */
  lemma Member1(js: string, toks: seq<J.Tok>, members: seq<Member>, pos: nat, i: nat, obj: int)
    returns (valPos: nat, next: nat, j: nat)
    requires MembersAt(js, toks, members, pos, i, obj) && members != []
    ensures TreeAt(js, toks, members[0].val, valPos, i + 1, obj)
    ensures j == i + 1 + Count(members[0].val) && MembersAt(js, toks, members[1..], next, j, obj)
    ensures i < |toks| && toks[i].kind.Str? && toks[i].parent == obj && TextOf(js, toks[i]) == members[0].key
    ensures toks[i].start == pos + 1 && valPos == pos + |members[0].key| + 4
    ensures next == pos + |RenderMember(members[0])| + 2
  {
    hide Render, RenderMember, MemberToks, Toks, PieceAt;
    valPos, next, j := pos + |members[0].key| + 4, pos + |RenderMember(members[0])| + 2, i + 1 + Count(members[0].val);
    MembersFirst(js, toks, members, pos, i, obj, next, j);
    MemberSplit(js, toks, members[0], pos, i, obj, valPos);
    QuotedToken(js, pos + 1, members[0].key, 0, obj);
    KeyInRange(js, toks, members[0].val, valPos, i + 1, obj);
  }

  lemma KeyInRange(js: string, toks: seq<J.Tok>, t: Tree, pos: nat, at: nat, parent: int)
    requires TreeAt(js, toks, t, pos, at, parent) && at > 0
    ensures at - 1 < |toks|
  {
  }

  lemma Item1(js: string, toks: seq<J.Tok>, items: seq<Tree>, pos: nat, at: nat, parent: int)
    returns (next: nat, i: nat)
    requires ItemsAt(js, toks, items, pos, at, parent) && items != []
    ensures TreeAt(js, toks, items[0], pos, at, parent) && at < |toks|
    ensures i == at + Count(items[0]) == SkipTok(toks, at) && ItemsAt(js, toks, items[1..], next, i, parent)
  {
    hide Render, Toks, PieceAt;
    next, i := pos + |Render(items[0])| + 2, at + Count(items[0]);
    ItemsHead(js, toks, items, pos, at, parent, next, i);
    FirstIs(js, toks, items[0], pos, at, parent);
    SkipsTree(js, toks, items[0], pos, at, parent);
  }

  lemma ReadsMakeFn(js: string, toks: seq<J.Tok>, a: Arg, pos: nat, at: nat, parent: int)
    requires a.MakeFn? && TreeAt(js, toks, ArgTree(a), pos, at, parent)
    ensures at < |toks| && toks[at].kind.Array?
    ensures ReadMakeFn(js, toks, at) == Some(MakeFn(Escaped(a.display), Escaped(a.code), a.isAsync))
  {
    hide TreeAt, ItemsAt, Escaped, SkipTok;
    var items := [Quoted(Escaped(a.display)), Quoted(Escaped(a.code)), Plain(Bool(a.isAsync))];
    FirstIs(js, toks, ArgTree(a), pos, at, parent);
    OpenList(js, toks, items, pos, at, parent);
    var p1, i1 := Item1(js, toks, items, pos + 1, at + 1, at);
    var p2, i2 := Item1(js, toks, items[1..], p1, i1, at);
    var p3, i3 := Item1(js, toks, items[2..], p2, i2, at);
    FirstIs(js, toks, items[0], pos + 1, at + 1, at);
    FirstIs(js, toks, items[1], p1, i1, at);
    FirstIs(js, toks, items[2], p2, i2, at);
    SkipIs(js, toks, List(items), pos, at, parent);
    CountThree(items);
  }

  lemma SkipIs(js: string, toks: seq<J.Tok>, t: Tree, pos: nat, at: nat, parent: int)
    requires TreeAt(js, toks, t, pos, at, parent)
    ensures SkipTok(toks, at) == at + Count(t)
  {
    hide TreeAt, Count;
    FirstIs(js, toks, t, pos, at, parent);
    SkipsTree(js, toks, t, pos, at, parent);
  }

  lemma CountThree(items: seq<Tree>)
    requires |items| == 3 && items[0].Quoted? && items[1].Quoted? && items[2].Plain?
    ensures Count(List(items)) == 4
  {
    assert items == [items[0], items[1], items[2]] && items[1..] == [items[1], items[2]]
           && items[1..][1..] == [items[2]];
    assert CountItems([items[2]]) == 1;
    assert CountItems([items[1], items[2]]) == 2;
    assert CountItems(items) == 3;
  }

  lemma ReadsTry(js: string, toks: seq<J.Tok>, a: Arg, pos: nat, at: nat, parent: int)
    requires a.TryArg? && TreeAt(js, toks, ArgTree(a), pos, at, parent)
    ensures at < |toks| && toks[at].kind.Object?
    ensures ReadTry(js, toks, at) == Some(TryArg(a.catchIp, a.finallyIp, Escaped(a.catchName)))
  {
    hide TreeAt, Escaped, Lookup, NumberOf, Decimal, ReadAddress;
    TryParts(js, toks, a, pos, at, parent);
    AddressBack(js, toks, at + 2, a.catchIp);
    AddressBack(js, toks, at + 4, a.finallyIp);
  }

  lemma AddressBack(js: string, toks: seq<J.Tok>, i: nat, n: int)
    requires i < |toks| && toks[i].kind.Primitive? && TextOf(js, toks[i]) == Decimal(n)
    ensures ReadAddress(js, toks, i) == Some(n)
  {
    hide Decimal, NumberOf;
    DecimalBack(n);
    DecimalOk(n);
  }

  /** Where the parts of a handler's addresses are found. */
  lemma TryParts(js: string, toks: seq<J.Tok>, a: Arg, pos: nat, at: nat, parent: int)
    requires a.TryArg? && TreeAt(js, toks, ArgTree(a), pos, at, parent)
    ensures at + 6 < |toks| && toks[at].kind.Object?
    ensures toks[at + 2].kind.Primitive? && TextOf(js, toks[at + 2]) == Decimal(a.catchIp)
    ensures toks[at + 4].kind.Primitive? && TextOf(js, toks[at + 4]) == Decimal(a.finallyIp)
    ensures toks[at + 6].kind.Str? && TextOf(js, toks[at + 6]) == Escaped(a.catchName)
    ensures Lookup(js, toks, at, "catch_ip", at + 1) == at + 2
    ensures Lookup(js, toks, at, "finally_ip", at + 1) == at + 4
    ensures Lookup(js, toks, at, "catch_name", at + 1) == at + 6
  {
    hide TreeAt, MembersAt, Escaped, Lookup, Decimal, Find;
    var c, f, n := Plain(Decimal(a.catchIp)), Plain(Decimal(a.finallyIp)), Quoted(Escaped(a.catchName));
    var members := [Member("catch_ip", c), Member("finally_ip", f), Member("catch_name", n)];
    FirstIs(js, toks, ArgTree(a), pos, at, parent);
    var v1, v2, v3 := ThreeValues(js, toks, members, pos, at, parent);
    FirstIs(js, toks, c, v1, at + 2, at);
    FirstIs(js, toks, f, v2, at + 4, at);
    FirstIs(js, toks, n, v3, at + 6, at);
    LookupRecord(js, toks, "catch_ip", members, pos, at, parent);
    LookupRecord(js, toks, "finally_ip", members, pos, at, parent);
    LookupRecord(js, toks, "catch_name", members, pos, at, parent);
    FindThree(members, at + 1);
  }

  lemma ThreeValues(js: string, toks: seq<J.Tok>, ms: seq<Member>, pos: nat, at: nat, parent: int)
    returns (v1: nat, v2: nat, v3: nat)
    requires |ms| == 3 && TreeAt(js, toks, Record(ms), pos, at, parent)
    requires ms[0].val.Plain? && ms[1].val.Plain?
    ensures TreeAt(js, toks, ms[0].val, v1, at + 2, at) && TreeAt(js, toks, ms[1].val, v2, at + 4, at)
    ensures TreeAt(js, toks, ms[2].val, v3, at + 6, at)
  {
    hide TreeAt, MembersAt, ItemsAt, Count;
    CountLeaves(ms[0].val);
    CountLeaves(ms[1].val);
    OpenRecord(js, toks, ms, pos, at, parent);
    var p1, i1, p2, i2, p3, i3;
    v1, p1, i1 := Member1(js, toks, ms, pos + 1, at + 1, at);
    v2, p2, i2 := Member1(js, toks, ms[1..], p1, i1, at);
    v3, p3, i3 := Member1(js, toks, ms[2..], p2, i2, at);
  }

  lemma FindThree(members: seq<Member>, i: nat)
    requires |members| == 3 && members[0].val.Plain? && members[1].val.Plain?
    requires members[0].key != members[1].key && members[1].key != members[2].key && members[2].key != members[0].key
    ensures Find(members, members[0].key, i) == i + 1
    ensures Find(members, members[1].key, i) == i + 3
    ensures Find(members, members[2].key, i) == i + 5
  {
    var a, b, c := members[0], members[1], members[2];
    assert members == [a, b, c] && members[1..] == [b, c] && [b, c][1..] == [c];
    assert Find([c], c.key, i + 4) == i + 5;
    assert Find([b, c], c.key, i + 2) == i + 5;
    assert Find([b, c], b.key, i + 2) == i + 3;
  }

  lemma ReadsArg(js: string, toks: seq<J.Tok>, op: string, a: Arg, pos: nat, at: nat, parent: int)
    requires TreeAt(js, toks, ArgTree(a), pos, at, parent)
    ensures at < |toks| && (if op == "LOAD_CONST" then ReadConst(js, toks[at]) else ReadArg(js, toks, at))
                           == ArgBack(op, a)
  {
    hide TreeAt, Escaped, NumberOf, Formatted, Decimal, ReadMakeFn, ReadTry, Digits;
    FirstIs(js, toks, ArgTree(a), pos, at, parent);
    match a
    case Num(n) =>
      NumberBack(n);
      FormattedOk(n);
    case MakeFn(_, _, _) => ReadsMakeFn(js, toks, a, pos, at, parent);
    case TryArg(_, _, _) => ReadsTry(js, toks, a, pos, at, parent);
    case _ =>
  }

  /** Where the parts of an instruction are found. */
  lemma InstrParts(js: string, toks: seq<J.Tok>, i: Instr, pos: nat, at: nat, parent: int)
    requires TreeAt(js, toks, InstrTree(i), pos, at, parent)
    ensures at + 4 < |toks| && TextOf(js, toks[at + 2]) == Escaped(i.op)
    ensures toks[at + 3].kind.Str? && TextOf(js, toks[at + 3]) == "arg"
    ensures Lookup(js, toks, at, "op", at + 1) == at + 2
    ensures Lookup(js, toks, at, "arg", at + 1) == if Escaped(i.op) == "arg" then at + 3 else at + 4
    ensures (if i.op == "LOAD_CONST" then ReadConst(js, toks[at + 4]) else ReadArg(js, toks, at + 4))
         == ArgBack(i.op, i.arg)
  {
    hide TreeAt, MembersAt, Escaped, Lookup, ArgTree, ReadConst, ReadArg, ArgBack;
    var op, arg := Quoted(Escaped(i.op)), ArgTree(i.arg);
    var members := [Member("op", op), Member("arg", arg)];
    FirstIs(js, toks, InstrTree(i), pos, at, parent);
    OpenRecord(js, toks, members, pos, at, parent);
    var v1, p1, i1 := Member1(js, toks, members, pos + 1, at + 1, at);
    var v2, p2, i2 := Member1(js, toks, members[1..], p1, i1, at);
    FirstIs(js, toks, op, v1, at + 2, at);
    ReadsArg(js, toks, i.op, i.arg, v2, i1 + 1, at);
    LookupRecord(js, toks, "op", members, pos, at, parent);
    LookupRecord(js, toks, "arg", members, pos, at, parent);
    FindTwo(members, at + 1);
  }

  lemma ReadsInstr(js: string, toks: seq<J.Tok>, i: Instr, pos: nat, at: nat, parent: int)
    requires TreeAt(js, toks, InstrTree(i), pos, at, parent)
    ensures at < |toks| && ReadInstr(js, toks, at) == InstrBack(i)
  {
    hide TreeAt, Escaped, Lookup, ReadConst, ReadArg, ArgBack, InstrTree;
    InstrParts(js, toks, i, pos, at, parent);
    EscapedIs(i.op, "arg");
    EscapedIs(i.op, "LOAD_CONST");
    if i.op == "arg" { ReadsKey(js, toks, at + 3); }
  }

  lemma ReadsKey(js: string, toks: seq<J.Tok>, k: nat)
    requires k < |toks| && toks[k].kind.Str?
    ensures ReadArg(js, toks, k) == Some(Text(TextOf(js, toks[k])))
  {
  }

  lemma FindTwo(members: seq<Member>, i: nat)
    requires |members| == 2 && members[0].val.Quoted? && members[0].key != members[1].key
    ensures Find(members, members[0].key, i) == i + 1
    ensures Find(members, members[1].key, i) == if members[0].val.raw == members[1].key then i + 2 else i + 3
  {
    var a, b := members[0], members[1];
    assert members == [a, b] && members[1..] == [b];
    assert Find([b], b.key, i + 2) == i + 3;
  }

  lemma {:induction false} ReadsInstrs(js: string, toks: seq<J.Tok>, instrs: seq<Instr>, pos: nat, at: nat, parent: int)
    requires ItemsAt(js, toks, InstrTrees(instrs), pos, at, parent)
    ensures ReadInstrs(js, toks, at, |instrs|) == InstrsBack(instrs)
    decreases |instrs|
  {
    hide ItemsAt, TreeAt, InstrTree, ReadInstr, InstrBack, SkipTok;
    if instrs != [] {
      var next, i := Item1(js, toks, InstrTrees(instrs), pos, at, parent);
      ReadsInstr(js, toks, instrs[0], pos, at, parent);
      assert InstrTrees(instrs)[1..] == InstrTrees(instrs[1..]);
      ReadsInstrs(js, toks, instrs[1..], next, i, parent);
    }
  }

  lemma {:induction false} ReadsParams(js: string, toks: seq<J.Tok>, params: seq<string>, pos: nat, at: nat,
                                       parent: int)
    requires ItemsAt(js, toks, ParamTrees(params), pos, at, parent)
    ensures ReadParams(js, toks, at, |params|) == Some(EscapedAll(params))
    decreases |params|
  {
    hide ItemsAt, TreeAt, Escaped, SkipTok;
    if params != [] {
      var next, i := Item1(js, toks, ParamTrees(params), pos, at, parent);
      FirstIs(js, toks, Quoted(Escaped(params[0])), pos, at, parent);
      assert ParamTrees(params)[1..] == ParamTrees(params[1..]);
      ReadsParams(js, toks, params[1..], next, i, parent);
    }
  }

  lemma FindFour(members: seq<Member>, i: nat, n: nat)
    requires |members| == 4 && members[0].val.Quoted? && members[1].val.List? && members[2].val.Plain?
             && members[3].val.List?
    requires members[0].key == "name" && members[1].key == "params" && members[2].key == "is_async"
             && members[3].key == "instructions"
    requires n == Count(members[1].val)
    ensures var raw := members[0].val.raw;
            && Find(members, "name", i) == i + 1
            && Find(members, "params", i) == (if raw == "params" then i + 2 else i + 3)
            && Find(members, "is_async", i) == (if raw == "is_async" then i + 2 else i + 4 + n)
            && Find(members, "instructions", i) == (if raw == "instructions" then i + 2 else i + 6 + n)
  {
    hide Count;
    var a, b, c, d := members[0], members[1], members[2], members[3];
    assert members == [a, b, c, d] && members[1..] == [b, c, d] && [b, c, d][1..] == [c, d] && [c, d][1..] == [d];
    assert Count(a.val) == 1 && Count(c.val) == 1 by { CountLeaves(a.val); CountLeaves(c.val); }
    var k := i + 3 + n;
    assert Find([d], "instructions", k + 2) == k + 3;
    assert Find([c, d], "instructions", k) == k + 3 && Find([c, d], "is_async", k) == k + 1;
    assert Find([b, c, d], "instructions", i + 2) == k + 3 && Find([b, c, d], "is_async", i + 2) == k + 1;
    assert Find([b, c, d], "params", i + 2) == i + 3;
  }

  lemma CountLeaves(t: Tree)
    ensures t.Quoted? || t.Plain? ==> Count(t) == 1
  {
  }

  function FunctionFields(f: Function): seq<Member> {
    [Member("name", Quoted(Escaped(f.name))), Member("params", List(ParamTrees(f.params))),
     Member("is_async", Plain(Bool(f.isAsync))), Member("instructions", List(InstrTrees(f.instrs)))]
  }

  /** The values of the four fields of a function, and the second key. */
  lemma FunctionValues(js: string, toks: seq<J.Tok>, ms: seq<Member>, pos: nat, at: nat, parent: int, n: nat)
    returns (v1: nat, v2: nat, v3: nat, v4: nat)
    requires |ms| == 4 && TreeAt(js, toks, Record(ms), pos, at, parent)
    requires ms[0].val.Quoted? && ms[2].val.Plain? && n == Count(ms[1].val)
    ensures at + 3 < |toks| && toks[at + 3].kind.Str? && TextOf(js, toks[at + 3]) == ms[1].key
    ensures TreeAt(js, toks, ms[0].val, v1, at + 2, at) && TreeAt(js, toks, ms[1].val, v2, at + 4, at)
    ensures TreeAt(js, toks, ms[2].val, v3, at + 5 + n, at) && TreeAt(js, toks, ms[3].val, v4, at + 7 + n, at)
  {
    hide TreeAt, MembersAt, ItemsAt, Count;
    CountLeaves(ms[0].val);
    CountLeaves(ms[2].val);
    OpenRecord(js, toks, ms, pos, at, parent);
    var p1, i1, p2, i2, p3, i3, p4, i4;
    v1, p1, i1 := Member1(js, toks, ms, pos + 1, at + 1, at);
    v2, p2, i2 := Member1(js, toks, ms[1..], p1, i1, at);
    v3, p3, i3 := Member1(js, toks, ms[2..], p2, i2, at);
    v4, p4, i4 := Member1(js, toks, ms[3..], p3, i3, at);
  }

  lemma FunctionLookups(js: string, toks: seq<J.Tok>, f: Function, pos: nat, at: nat, parent: int, n: nat)
    requires TreeAt(js, toks, Record(FunctionFields(f)), pos, at, parent) && n == Count(List(ParamTrees(f.params)))
    ensures at < |toks|
    ensures Lookup(js, toks, at, "name", at + 1) == at + 2
    ensures Lookup(js, toks, at, "params", at + 1) == if Escaped(f.name) == "params" then at + 3 else at + 4
    ensures Lookup(js, toks, at, "is_async", at + 1) == if Escaped(f.name) == "is_async" then at + 3 else at + 5 + n
    ensures Lookup(js, toks, at, "instructions", at + 1) == if Escaped(f.name) == "instructions" then at + 3
                                                            else at + 7 + n
  {
    hide TreeAt, Escaped, Lookup, Bool, InstrTrees, ParamTrees, Count, Find;
    LookupRecord(js, toks, "name", FunctionFields(f), pos, at, parent);
    LookupRecord(js, toks, "params", FunctionFields(f), pos, at, parent);
    LookupRecord(js, toks, "is_async", FunctionFields(f), pos, at, parent);
    LookupRecord(js, toks, "instructions", FunctionFields(f), pos, at, parent);
    FindFour(FunctionFields(f), at + 1, n);
  }

  lemma ParamsPart(js: string, toks: seq<J.Tok>, params: seq<string>, pos: nat, at: nat, parent: int)
    requires TreeAt(js, toks, List(ParamTrees(params)), pos, at, parent)
    ensures at < |toks| && toks[at].kind.Array? && toks[at].size == |params|
    ensures ReadParams(js, toks, at + 1, |params|) == Some(EscapedAll(params))
  {
    hide TreeAt, ItemsAt, ReadParams, ParamTrees;
    FirstIs(js, toks, List(ParamTrees(params)), pos, at, parent);
    OpenList(js, toks, ParamTrees(params), pos, at, parent);
    ReadsParams(js, toks, params, pos + 1, at + 1, at);
  }

  lemma InstrsPart(js: string, toks: seq<J.Tok>, instrs: seq<Instr>, pos: nat, at: nat, parent: int)
    requires TreeAt(js, toks, List(InstrTrees(instrs)), pos, at, parent)
    ensures at < |toks| && toks[at].kind.Array? && toks[at].size == |instrs|
    ensures ReadInstrs(js, toks, at + 1, |instrs|) == InstrsBack(instrs)
  {
    hide TreeAt, ItemsAt, ReadInstrs, InstrTrees;
    FirstIs(js, toks, List(InstrTrees(instrs)), pos, at, parent);
    OpenList(js, toks, InstrTrees(instrs), pos, at, parent);
    ReadsInstrs(js, toks, instrs, pos + 1, at + 1, at);
  }

  /** Where the parts of a function are found. */
  lemma FunctionParts(js: string, toks: seq<J.Tok>, f: Function, pos: nat, at: nat, parent: int, n: nat)
    requires TreeAt(js, toks, FunctionTree(f), pos, at, parent) && n == Count(List(ParamTrees(f.params)))
    ensures at + 7 + n < |toks|
    ensures TextOf(js, toks[at + 2]) == Escaped(f.name)
    ensures toks[at + 3].kind.Str? && TextOf(js, toks[at + 3]) == "params"
    ensures toks[at + 4].kind.Array? && toks[at + 4].size == |f.params|
            && ReadParams(js, toks, at + 5, |f.params|) == Some(EscapedAll(f.params))
    ensures TextOf(js, toks[at + 5 + n]) == Bool(f.isAsync)
    ensures toks[at + 7 + n].kind.Array? && toks[at + 7 + n].size == |f.instrs|
            && ReadInstrs(js, toks, at + 8 + n, |f.instrs|) == InstrsBack(f.instrs)
  {
    hide TreeAt, Escaped, ReadParams, ReadInstrs, InstrsBack, Bool, InstrTrees, ParamTrees, Count;
    var ms := FunctionFields(f);
    assert FunctionTree(f) == Record(ms);
    var v1, v2, v3, v4 := FunctionValues(js, toks, ms, pos, at, parent, n);
    FirstIs(js, toks, ms[0].val, v1, at + 2, at);
    ParamsPart(js, toks, f.params, v2, at + 4, at);
    FirstIs(js, toks, ms[2].val, v3, at + 5 + n, at);
    InstrsPart(js, toks, f.instrs, v4, at + 7 + n, at);
  }

  /** A function from its parts: name `n`, second key `k`, parameters `p`, flag `a`, code `c`. */
  lemma FromParts(js: string, toks: seq<J.Tok>, f: Function, codeName: string, at: nat, n: nat, k: nat, p: nat, a: nat,
                  c: nat)
    requires at < |toks| && n < |toks| && k < |toks| && p < |toks| && a < |toks| && c < |toks|
    requires TextOf(js, toks[n]) == Escaped(f.name) && toks[k].kind.Str? && TextOf(js, toks[k]) == "params"
    requires toks[p].kind.Array? && toks[p].size == |f.params|
             && ReadParams(js, toks, p + 1, |f.params|) == Some(EscapedAll(f.params))
    requires TextOf(js, toks[a]) == Bool(f.isAsync)
    requires toks[c].kind.Array? && toks[c].size == |f.instrs|
             && ReadInstrs(js, toks, c + 1, |f.instrs|) == InstrsBack(f.instrs)
    requires Lookup(js, toks, at, "name", at + 1) == n
    requires Lookup(js, toks, at, "params", at + 1) == if f.name == "params" then k else p
    requires Lookup(js, toks, at, "is_async", at + 1) == if f.name == "is_async" then k else a
    requires Lookup(js, toks, at, "instructions", at + 1) == if f.name == "instructions" then k else c
    ensures ReadFunction(js, toks, at, codeName) == FunctionBack(f, codeName)
  {
    hide Escaped, EscapedAll, Lookup, ReadParams, ReadInstrs, InstrsBack, TextOf;
  }

  lemma ReadsFunction(js: string, toks: seq<J.Tok>, f: Function, codeName: string, pos: nat, at: nat, parent: int)
    requires TreeAt(js, toks, FunctionTree(f), pos, at, parent)
    ensures at < |toks| && ReadFunction(js, toks, at, codeName) == FunctionBack(f, codeName)
  {
    hide TreeAt, Escaped, EscapedAll, Lookup, ReadParams, ReadInstrs, InstrsBack, Count, ParamTrees, InstrTrees, TextOf,
      ReadFunction, FunctionBack, Bool;
    var n := Count(List(ParamTrees(f.params)));
    assert FunctionTree(f) == Record(FunctionFields(f));
    hide FunctionTree, FunctionFields;
    FunctionParts(js, toks, f, pos, at, parent, n);
    FunctionLookups(js, toks, f, pos, at, parent, n);
    EscapedIs(f.name, "params");
    EscapedIs(f.name, "is_async");
    EscapedIs(f.name, "instructions");
    FromParts(js, toks, f, codeName, at, at + 2, at + 3, at + 4, at + 5 + n, at + 7 + n);
  }

  lemma {:induction false} FunctionsSkip(js: string, toks: seq<J.Tok>, obj: nat, i: nat, j: nat)
    requires obj < |toks| && i <= j <= |toks|
    requires forall k :: i <= k < j ==> toks[k].start < toks[obj].end && !(toks[k].parent == obj && toks[k].kind.Str?)
    ensures ReadFunctions(js, toks, obj, i) == ReadFunctions(js, toks, obj, j)
    decreases j - i
  {
    if i < j { FunctionsSkip(js, toks, obj, i + 1, j); }
  }

  lemma {:induction false} ReadsFunctions(js: string, toks: seq<J.Tok>, obj: nat, fs: seq<Function>, pos: nat, i: nat,
                                          end: nat)
    requires obj < i && obj < |toks| && MembersAt(js, toks, FunctionMembers(fs), pos, i, obj)
    requires fs != [] ==> pos + |RenderMembers(FunctionMembers(fs))| < toks[obj].end
    requires end == i + CountMembers(FunctionMembers(fs)) && After(toks, end, toks[obj].end)
    ensures ReadFunctions(js, toks, obj, i) == FunctionsBack(fs)
    decreases |fs|
  {
    hide RenderMembers, Render, MembersAt, Escaped, ReadFunctions, FunctionBack, FunctionTree;
    if fs == [] {
      NoFunctions(js, toks, obj, i);
    } else {
      var next, j := FirstFunction(js, toks, obj, fs, pos, i);
      ReadsFunctions(js, toks, obj, fs[1..], next, j, end);
    }
  }

  /** The first entry of the table is read, and the others follow it. */
  lemma FirstFunction(js: string, toks: seq<J.Tok>, obj: nat, fs: seq<Function>, pos: nat, i: nat)
    returns (next: nat, j: nat)
    requires obj < i && obj < |toks| && fs != [] && MembersAt(js, toks, FunctionMembers(fs), pos, i, obj)
    requires pos + |RenderMembers(FunctionMembers(fs))| < toks[obj].end
    ensures i < j && MembersAt(js, toks, FunctionMembers(fs[1..]), next, j, obj)
    ensures fs[1..] != [] ==> next + |RenderMembers(FunctionMembers(fs[1..]))| < toks[obj].end
    ensures i + CountMembers(FunctionMembers(fs)) == j + CountMembers(FunctionMembers(fs[1..]))
    ensures var first, rest := FunctionBack(fs[0], Escaped(fs[0].codeName)), ReadFunctions(js, toks, obj, j);
            ReadFunctions(js, toks, obj, i) == if first.None? || rest.None? then None
            else Some([first.value] + rest.value)
  {
    hide Render, RenderMember, RenderMembers, CountMembers, Count, MembersAt, TreeAt, FunctionTree, Escaped,
      ReadFunctions, FunctionBack, FunctionMembers, TextOf;
    var members := FunctionMembers(fs);
    EntryOf(fs, 0);
    TailMembers(fs);
    var valPos;
    valPos, next, j := Member1(js, toks, members, pos, i, obj);
    Lengths(members, members[0], members[1..]);
    ReadsEntry(js, toks, obj, fs[0], members[0].key, pos + 1, valPos, i, j);
  }

  lemma NoFunctions(js: string, toks: seq<J.Tok>, obj: nat, i: nat)
    requires obj < |toks| && After(toks, i, toks[obj].end)
    ensures ReadFunctions(js, toks, obj, i) == Some([])
  {
  }

  lemma TailMembers(fs: seq<Function>)
    requires fs != []
    ensures FunctionMembers(fs)[1..] == FunctionMembers(fs[1..])
  {
  }

  /** One entry of the table: its key, its function, then the entries after it. */
  lemma ReadsEntry(js: string, toks: seq<J.Tok>, obj: nat, f: Function, key: string, keyPos: nat, valPos: nat, i: nat,
                   j: nat)
    requires obj < i < |toks| && toks[i].parent == obj && toks[i].kind.Str? && TextOf(js, toks[i]) == key
             && toks[i].start == keyPos
    requires TreeAt(js, toks, FunctionTree(f), valPos, i + 1, obj) && j == i + 1 + Count(FunctionTree(f))
    requires keyPos < valPos && valPos + |Render(FunctionTree(f))| < toks[obj].end
    ensures j <= |toks|
    ensures var first, rest := FunctionBack(f, key), ReadFunctions(js, toks, obj, j);
            ReadFunctions(js, toks, obj, i) == if first.None? || rest.None? then None
            else Some([first.value] + rest.value)
  {
    hide Render, Toks, Count, FunctionTree, ReadFunction, FunctionBack, TreeAt;
    InRange(js, toks, FunctionTree(f), valPos, i + 1, obj);
    ReadsFunction(js, toks, f, key, valPos, i + 1, obj);
    FirstIs(js, toks, FunctionTree(f), valPos, i + 1, obj);
    SkipsTree(js, toks, FunctionTree(f), valPos, i + 1, obj);
    FunctionIsRecord(f);
    FunctionsSkip(js, toks, obj, i + 1, j);
  }

  lemma FunctionIsRecord(f: Function)
    ensures FunctionTree(f).Record?
  {
  }

  // Every tree the writer builds can be tokenized.

  lemma OkArg(a: Arg)
    ensures Ok(ArgTree(a))
  {
    hide Escaped, Decimal, Formatted, RawOk;
    match a
    case Num(n) => FormattedOk(n);
    case Text(s) => EscapedOk(s);
    case MakeFn(display, code, isAsync) =>
      EscapedOk(display);
      EscapedOk(code);
      var items := [Quoted(Escaped(display)), Quoted(Escaped(code)), Plain(Bool(isAsync))];
      OkAll(items);
    case TryArg(c, f, name) =>
      EscapedOk(name);
      DecimalOk(c);
      DecimalOk(f);
      ShortKeys();
      var ms := [Member("catch_ip", Plain(Decimal(c))), Member("finally_ip", Plain(Decimal(f))),
                 Member("catch_name", Quoted(Escaped(name)))];
      OkThree(ms);
    case NoArg =>
  }

  lemma OkThree(ms: seq<Member>)
    requires |ms| == 3 && forall k :: 0 <= k < 3 ==> RawOk(ms[k].key) && Ok(ms[k].val)
    ensures OkMembers(ms)
  {
    hide Ok, RawOk;
    assert ms == [ms[0], ms[1], ms[2]] && ms[1..] == [ms[1], ms[2]] && ms[1..][1..] == [ms[2]] && [ms[2]][1..] == [];
    assert OkMembers([ms[2]]);
    assert OkMembers([ms[1], ms[2]]);
  }

  lemma {:induction false} PlainRaw(s: string)
    requires PlainText(s)
    ensures RawOk(s)
  {
    EscapedSame(s);
    EscapedOk(s);
  }

  lemma ShortKeys()
    ensures RawOk("catch_ip") && RawOk("finally_ip") && RawOk("catch_name") && RawOk("op") && RawOk("arg")
    ensures RawOk("name") && RawOk("params") && RawOk("is_async") && RawOk("instructions") && RawOk("entry")
            && RawOk("functions")
  {
    HandlerKeys();
    FunctionKeys();
    ProgramKeys();
  }

  lemma HandlerKeys()
    ensures RawOk("catch_ip") && RawOk("finally_ip") && RawOk("catch_name")
  {
    hide RawOk;
    PlainRaw("catch_ip");
    PlainRaw("finally_ip");
    PlainRaw("catch_name");
  }

  lemma FunctionKeys()
    ensures RawOk("name") && RawOk("params") && RawOk("is_async") && RawOk("instructions")
  {
    hide RawOk;
    PlainRaw("name");
    PlainRaw("params");
    PlainRaw("is_async");
    PlainRaw("instructions");
  }

  lemma ProgramKeys()
    ensures RawOk("op") && RawOk("arg") && RawOk("entry") && RawOk("functions")
  {
    hide RawOk;
    PlainRaw("op");
    PlainRaw("arg");
    PlainRaw("entry");
    PlainRaw("functions");
  }

  lemma OkInstr(i: Instr)
    ensures Ok(InstrTree(i))
  {
    hide ArgTree, Escaped, RawOk;
    OkArg(i.arg);
    EscapedOk(i.op);
    ShortKeys();
    OkTwo(Member("op", Quoted(Escaped(i.op))), Member("arg", ArgTree(i.arg)));
  }

  lemma OkTwo(a: Member, b: Member)
    requires RawOk(a.key) && Ok(a.val) && RawOk(b.key) && Ok(b.val)
    ensures OkMembers([a, b])
  {
    hide Ok, RawOk;
    assert [a, b][1..] == [b] && [b][1..] == [];
    assert OkMembers([b]);
  }

  lemma {:induction false} OkAll(items: seq<Tree>)
    requires forall k :: 0 <= k < |items| ==> Ok(items[k])
    ensures OkItems(items)
    decreases |items|
  {
    if items != [] { OkAll(items[1..]); }
  }

  lemma {:induction false} OkAllMembers(members: seq<Member>)
    requires forall k :: 0 <= k < |members| ==> RawOk(members[k].key) && Ok(members[k].val)
    ensures OkMembers(members)
    decreases |members|
  {
    if members != [] { OkAllMembers(members[1..]); }
  }

  lemma OkFunction(f: Function)
    ensures Ok(FunctionTree(f))
  {
    hide Escaped, RawOk, InstrTree, ParamTrees, InstrTrees, Ok;
    OkParams(f.params);
    OkInstrs(f.instrs);
    EscapedOk(f.name);
    FunctionKeys();
    OkLeaves(f.name, f.isAsync);
    OkAllMembers(FunctionFields(f));
    OkRecord(FunctionFields(f));
    assert FunctionTree(f) == Record(FunctionFields(f));
  }

  lemma OkLeaves(name: string, isAsync: bool)
    requires RawOk(Escaped(name))
    ensures Ok(Quoted(Escaped(name))) && Ok(Plain(Bool(isAsync)))
  {
    hide Escaped, RawOk;
  }

  lemma OkRecord(ms: seq<Member>)
    requires OkMembers(ms)
    ensures Ok(Record(ms))
  {
  }

  lemma OkParams(params: seq<string>)
    ensures Ok(List(ParamTrees(params)))
  {
    hide Escaped, RawOk;
    forall k | 0 <= k < |params| ensures Ok(ParamTrees(params)[k]) { EscapedOk(params[k]); }
    OkAll(ParamTrees(params));
  }

  lemma OkInstrs(instrs: seq<Instr>)
    ensures Ok(List(InstrTrees(instrs)))
  {
    hide InstrTree;
    forall k | 0 <= k < |instrs| ensures Ok(InstrTrees(instrs)[k]) { OkInstr(instrs[k]); }
    OkAll(InstrTrees(instrs));
  }

  lemma OkProgram(p: Program)
    ensures Ok(ProgramTree(p))
  {
    hide FunctionTree, Escaped, RawOk;
    OkFunction(p.entry);
    forall k | 0 <= k < |p.functions|
      ensures RawOk(FunctionMembers(p.functions)[k].key) && Ok(FunctionMembers(p.functions)[k].val) {
      EscapedOk(p.functions[k].codeName);
      OkFunction(p.functions[k]);
    }
    OkAllMembers(FunctionMembers(p.functions));
    ShortKeys();
    OkTwo(Member("entry", FunctionTree(p.entry)), Member("functions", Record(FunctionMembers(p.functions))));
  }

  // The round trip.

  /** Where the two parts of a program are found. */
  lemma ProgramParts(js: string, toks: seq<J.Tok>, entry: Tree, table: Tree) returns (v1: nat, v2: nat, i1: nat)
    requires TreeAt(js, toks, Record([Member("entry", entry), Member("functions", table)]), 0, 0, -1) && entry.Record?
    ensures Lookup(js, toks, 0, "entry", 1) == 2 && Lookup(js, toks, 0, "functions", 1) == i1 + 1
    ensures toks != [] && toks[0].kind.Object?
    ensures TreeAt(js, toks, entry, v1, 2, 0) && TreeAt(js, toks, table, v2, i1 + 1, 0)
  {
    hide TreeAt, MembersAt, Lookup, Count;
    var ms := [Member("entry", entry), Member("functions", table)];
    FirstIs(js, toks, Record(ms), 0, 0, -1);
    OpenRecord(js, toks, ms, 0, 0, -1);
    var p1, p2, i2;
    v1, p1, i1 := Member1(js, toks, ms, 1, 1, 0);
    assert ms[1..] == [Member("functions", table)];
    v2, p2, i2 := Member1(js, toks, ms[1..], p1, i1, 0);
    PartsFound(js, toks, ms, i1);
  }

  lemma PartsFound(js: string, toks: seq<J.Tok>, ms: seq<Member>, i1: nat)
    requires TreeAt(js, toks, Record(ms), 0, 0, -1) && |ms| == 2 && i1 == 2 + Count(ms[0].val)
    requires ms[0].key == "entry" && ms[0].val.Record? && ms[1].key == "functions"
    ensures Lookup(js, toks, 0, "entry", 1) == 2 && Lookup(js, toks, 0, "functions", 1) == i1 + 1
  {
    hide TreeAt, MembersAt, Lookup, Count;
    LookupRecord(js, toks, "entry", ms, 0, 0, -1);
    LookupRecord(js, toks, "functions", ms, 0, 0, -1);
    assert ms[1..][0] == ms[1];
    assert Find(ms[1..], "functions", i1) == i1 + 1;
  }

  lemma ReadsProgram(js: string, toks: seq<J.Tok>, p: Program)
    requires TreeAt(js, toks, ProgramTree(p), 0, 0, -1)
    ensures ReadTokens(js, toks) == ProgramBack(p)
  {
    hide TreeAt, MembersAt, FunctionTree, Lookup, ReadFunction, ReadFunctions, FunctionBack, FunctionsBack,
      FunctionMembers;
    var entry, table := FunctionTree(p.entry), Record(FunctionMembers(p.functions));
    FunctionIsRecord(p.entry);
    var v1, v2, i1 := ProgramParts(js, toks, entry, table);
    ReadsFunction(js, toks, p.entry, "__entry__", v1, 2, 0);
    FirstIs(js, toks, table, v2, i1 + 1, 0);
    ReadsTable(js, toks, p.functions, v2, i1 + 1, 0);
  }

  lemma ReadsTable(js: string, toks: seq<J.Tok>, fs: seq<Function>, pos: nat, at: nat, parent: int)
    requires TreeAt(js, toks, Record(FunctionMembers(fs)), pos, at, parent)
    ensures at < |toks| && toks[at].kind.Object? && ReadFunctions(js, toks, at, at + 1) == FunctionsBack(fs)
  {
    hide TreeAt, MembersAt, ReadFunctions, FunctionsBack, RenderMembers, CountMembers, FunctionMembers;
    var ms := FunctionMembers(fs);
    FirstIs(js, toks, Record(ms), pos, at, parent);
    OpenRecord(js, toks, ms, pos, at, parent);
    assert |Render(Record(ms))| == |RenderMembers(ms)| + 2;
    ReadsFunctions(js, toks, at, fs, pos + 1, at + 1, at + 1 + CountMembers(ms));
  }

  /** The number of tokens a written program takes. */
  function TokenCount(p: Program): nat {
    Count(ProgramTree(p))
  }

  function Written(p: Program): string {
    Render(ProgramTree(p)) + "\n"
  }

  /** Reading a written program gives exactly `ProgramBack`, if the tokens fit. */
  lemma ReadsBack(p: Program, cap: nat)
    ensures Read(Written(p), cap) == if TokenCount(p) <= cap then ProgramBack(p) else None
  {
    hide Render, Toks, ReadTokens, ProgramBack, Ok, ProgramTree;
    var t := ProgramTree(p);
    OkProgram(p);
    TokenizesTree(t, cap);
    if TokenCount(p) <= cap {
      var ts := Toks(t, 0, 0, -1);
      assert ts[0..|ts|] == ts;
      assert TreeAt(Written(p), ts, t, 0, 0, -1);
      ReadsProgram(Written(p), ts, p);
    }
  }

  /** What a program must be like to survive. */
  predicate PlainArg(op: string, a: Arg) {
    match a
    case NoArg => true
    case Num(n) => -FIFTEEN < n < FIFTEEN || n % 10 == 0
    case Text(s) => PlainText(s)
    case MakeFn(display, code, _) => op != "LOAD_CONST" && PlainText(display) && PlainText(code)
    case TryArg(_, _, name) => op != "LOAD_CONST" && PlainText(name)
  }

  predicate PlainInstr(i: Instr) {
    if i.op == "arg" then i.arg == Text("arg") else PlainText(i.op) && PlainArg(i.op, i.arg)
  }

  predicate PlainFunction(f: Function) {
    && PlainText(f.name) && f.name != "params" && f.name != "instructions" && (f.name == "is_async" ==> !f.isAsync)
    && (forall k :: 0 <= k < |f.params| ==> PlainText(f.params[k]))
    && (forall k :: 0 <= k < |f.instrs| ==> PlainInstr(f.instrs[k]))
  }

  predicate PlainProgram(p: Program) {
    && PlainFunction(p.entry) && p.entry.codeName == "__entry__"
    && forall k :: 0 <= k < |p.functions| ==> PlainFunction(p.functions[k]) && PlainText(p.functions[k].codeName)
  }

  lemma SameArg(op: string, a: Arg)
    ensures ArgBack(op, a) == Some(a) <==> PlainArg(op, a)
  {
    match a
    case Text(s) => EscapedSame(s);
    case MakeFn(display, code, _) =>
      EscapedSame(display);
      EscapedSame(code);
    case TryArg(_, _, name) => EscapedSame(name);
    case _ =>
  }

  lemma SameInstr(i: Instr)
    ensures InstrBack(i) == Some(i) <==> PlainInstr(i)
  {
    hide ArgBack, PlainArg;
    SameArg(i.op, i.arg);
    EscapedSame(i.op);
  }

  lemma {:induction false} SameInstrs(instrs: seq<Instr>)
    ensures InstrsBack(instrs) == Some(instrs) <==> (forall k :: 0 <= k < |instrs| ==> PlainInstr(instrs[k]))
    ensures InstrsBack(instrs).Some? ==> |InstrsBack(instrs).value| == |instrs|
    decreases |instrs|
  {
    hide InstrBack, PlainInstr;
    if instrs != [] {
      SameInstr(instrs[0]);
      SameInstrs(instrs[1..]);
      assert instrs == [instrs[0]] + instrs[1..];
      assert (forall k :: 0 <= k < |instrs| ==> PlainInstr(instrs[k]))
        <==> PlainInstr(instrs[0]) && (forall k :: 0 <= k < |instrs[1..]| ==> PlainInstr(instrs[1..][k])) by {
        assert forall k :: 1 <= k < |instrs| ==> instrs[k] == instrs[1..][k - 1];
      }
      var first, rest := InstrBack(instrs[0]), InstrsBack(instrs[1..]);
      if first.Some? && rest.Some? { HeadTail(first.value, rest.value, instrs); }
    }
  }

  lemma HeadTail<T>(x: T, rest: seq<T>, all: seq<T>)
    requires all != []
    ensures [x] + rest == all <==> x == all[0] && rest == all[1..]
  {
    if [x] + rest == all { assert ([x] + rest)[0] == x && ([x] + rest)[1..] == rest; }
  }

  lemma {:induction false} SameParams(params: seq<string>)
    ensures EscapedAll(params) == params <==> (forall k :: 0 <= k < |params| ==> PlainText(params[k]))
    decreases |params|
  {
    hide Escaped, PlainText;
    if params != [] {
      EscapedSame(params[0]);
      SameParams(params[1..]);
      HeadTail(Escaped(params[0]), EscapedAll(params[1..]), params);
      assert (forall k :: 0 <= k < |params| ==> PlainText(params[k]))
        <==> PlainText(params[0]) && (forall k :: 0 <= k < |params[1..]| ==> PlainText(params[1..][k])) by {
        assert forall k :: 1 <= k < |params| ==> params[k] == params[1..][k - 1];
      }
    }
  }

  lemma SameFunction(f: Function, codeName: string)
    ensures FunctionBack(f, codeName) == Some(f) <==> PlainFunction(f) && codeName == f.codeName
  {
    hide InstrsBack, EscapedAll, PlainInstr, PlainText;
    EscapedSame(f.name);
    SameParams(f.params);
    SameInstrs(f.instrs);
  }

  lemma {:induction false} SameFunctions(fs: seq<Function>)
    ensures FunctionsBack(fs) == Some(fs)
       <==> (forall k :: 0 <= k < |fs| ==> PlainFunction(fs[k]) && PlainText(fs[k].codeName))
    decreases |fs|
  {
    hide FunctionBack, PlainFunction, PlainText;
    if fs != [] {
      EscapedSame(fs[0].codeName);
      SameFunction(fs[0], Escaped(fs[0].codeName));
      SameFunctions(fs[1..]);
      assert (forall k :: 0 <= k < |fs| ==> PlainFunction(fs[k]) && PlainText(fs[k].codeName))
        <==> PlainFunction(fs[0]) && PlainText(fs[0].codeName)
             && (forall k :: 0 <= k < |fs[1..]| ==> PlainFunction(fs[1..][k]) && PlainText(fs[1..][k].codeName)) by {
        assert forall k :: 1 <= k < |fs| ==> fs[k] == fs[1..][k - 1];
      }
      var first, rest := FunctionBack(fs[0], Escaped(fs[0].codeName)), FunctionsBack(fs[1..]);
      if first.Some? && rest.Some? { HeadTail(first.value, rest.value, fs); }
    }
  }

  /** Writing and reading give the program back exactly when it is plain and its tokens fit. */
  lemma RoundTrip(p: Program, cap: nat)
    ensures Read(Written(p), cap) == Some(p) <==> PlainProgram(p) && TokenCount(p) <= cap
  {
    hide Read, Written, TokenCount, FunctionBack, FunctionsBack, PlainFunction, PlainText;
    ReadsBack(p, cap);
    SameFunction(p.entry, "__entry__");
    SameFunctions(p.functions);
  }

  /** The written file, read again. */
  method Reload(p: Program, cap: nat) returns (r: Option<Program>)
    ensures r == Some(p) <==> PlainProgram(p) && TokenCount(p) <= cap
    ensures r == if TokenCount(p) <= cap then ProgramBack(p) else None
  {
    hide Read, TokenCount, ProgramBack, PlainProgram, Render;
    var writer := new Writer();
    writer.WriteProgram(p);
    assert writer.out == Written(p);
    RoundTrip(p, cap);
    ReadsBack(p, cap);
    r := ParseProgram(writer.out, cap);
  }
}
