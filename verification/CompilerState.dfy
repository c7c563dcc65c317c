/** What the compiler changes: the instructions and open loops of one function, the
    counters and the functions that are finished; and its ways of patching. */
module CompilerState {
  import opened Syntax
  import opened Bytecode
  import opened Lowering

  /** Where the jumps of an open loop are waiting for their targets. */
  datatype LoopPatch = LoopPatch(startIp: nat, breakJumps: seq<nat>, continueJumps: seq<nat>)

  /** The argument an instruction is patched with. */
  datatype Arg = Target(ip: nat) | TryArg(catchIp: Option<nat>, finIp: Option<nat>, catchName: Option<Ident>)

  function WithArg(i: Instr, a: Arg): Instr {
    match a
    case Target(ip) => WithTarget(i, ip)
    case TryArg(c, f, name) => if i.PushTry? then PushTry(c, f, name) else i
  }

  /** What the compiler's state is made of: the code and open loops of one
      function, the counters, and the functions finished so far. */
  datatype State = State(code: seq<Instr>, loops: seq<LoopPatch>, counters: Counters, functions: map<nat, FnCode>)

  /** The state after emitting an instruction, and after patching one. */
  function Emitted(st: State, i: Instr): State {
    st.(code := st.code + [i])
  }

  function Patched(st: State, at: nat, i: Instr): State
    requires at < |st.code|
  {
    st.(code := st.code[at := i])
  }

  /** Can the innermost loop be closed? */
  ghost predicate Closable(st: State, jexit: nat) {
    st.loops != [] && jexit < |st.code|
    && var l := st.loops[|st.loops| - 1];
    forall p :: p in l.breakJumps || p in l.continueJumps ==> p < |st.code|
  }

  ghost function Closed(st: State, jexit: nat): State
    requires Closable(st, jexit)
  {
    var k, exit := |st.loops| - 1, |st.code|;
    var l := st.loops[k];
    st.(code := PatchAll(PatchAll(st.code[jexit := WithTarget(st.code[jexit], exit)], l.breakJumps, exit),
                         l.continueJumps, l.startIp),
    loops := st.loops[..k])
  }

  /** The patches of a `tente`, in the order they are made. */
  function TryPatched(code: seq<Instr>, push: nat, jump: nat, hasCatch: bool, catchIp: Option<nat>, finIp: Option<nat>,
                      name: Option<Ident>): seq<Instr>
    requires push < |code| && jump < |code|
  {
    var end := |code|;
    var once := code[jump := WithTarget(code[jump], end)];
    var hole := LastHole(once);
    var twice := if hasCatch && hole >= 0 then once[hole := WithTarget(once[hole], end)] else once;
    twice[push := WithArg(twice[push], TryArg(catchIp, finIp, name))]
  }
}
