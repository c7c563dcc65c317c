# Trama: compiler, virtual machines, native toolchain and distributed runtime

This project models the parts of Trama where being right is hard, and proves what they
are for. `dfyconfig.toml` names the project's files.

## What is modelled

**The language core.** `Syntax` and `Semantics` give the statements (assignment, `se`,
`enquanto`, `para`, `pare`, `continue`, `tente`/`pegue`/`finalmente`, `lance`, `retorne`,
function declarations, closures) a fuel-indexed meaning with the outcomes normal, break,
continue, return, throw, fatal. `Bytecode` is the compiler as a function; `Compiler` is the
compiler as it is written: one growing instruction list per function, `None` holes that are
patched later, open loops with their lists of waiting jumps, counters for code names and
temporaries, and the backward scan at the end of a `tente`. `Machine` is the machine as a
small-step system over whole call stacks; `VirtualMachine` is the fetch loop over a mutable
frame. The main results:

- `Theorems.CompilationPreservesMeaning`: the source semantics gives a program an answer
  exactly when the machine halts with that answer on the compiled program. Divergence is
  covered in both directions: what never ends in the source never ends in the machine.
- `Theorems.NeverStuck`: no reachable configuration pops an empty operand stack, meets
  an end marker without its own handler in its own phase, or an unpatched jump.
- `Compiler.ProgramCompiler.Compile` and its statement methods: the patched code is exactly the
  code of the compiling function, for every accepted program.
- `Programs.RunProgram`: compiling with the imperative compiler and running on the
  imperative machine, top level and then `principal`, ends only with answers of the source.
- `Iteration.ProgramIterates`: a run of a program is the same whether each `para` is read as the
  loop over two hidden variables that the compiler makes of it, or as the visits to the elements
  that it stands for; so the compiled program means the second reading too
  (`Iteration.CompiledIterates`). This rests on an invariant over all runs (`Scoping`) that nobody
  else writes a loop's hidden variables.
- `Validation.CompileSource`: the compiler never refuses what validation accepts, and it leaves a
  hole exactly when a loop jump stands in a `finalmente` beside a `pegue`.

What the semantics means is also said apart from it. `Scopes` says where names are found and where
assignments land; `Operations` gives one rule for each form of expression, the laws of the
operations on values, and what arithmetic comes to from its tokens to its value; `Behaviour`
follows recursion, loops and exceptions to results that can be told without the semantics.

The two machines differ in a `Policy`. `PYTHON_VM` forgets a pending `nulo`, makes an
exception that leaves a frame fatal, and lets `BUILD_MAP 0` take the whole operand stack;
`NATIVE_VM` does none of these. The theorems hold for any policy, but the policy is all that
is modelled of the difference: `NATIVE_VM` stands for the native machine's exceptions, handlers
and map literals only. Closures and the operations on values follow
`src/trama/vm.py`; those on anything but numbers, and all built-ins, are parameters (`Host`)
that return, raise or crash.

**The native toolchain.** `Parser` is the recursive-descent expression parser with its cursor,
`OnePass` the native emitter that compiles while it reads; they accept the same prefix and
give the same code. `Show` writes expressions with as few parentheses as the grammar allows;
reading gives the expression back, which pins down precedence and associativity, and `Newlines`
says where it may be written over several lines.
`Json` is the native tokenizer with its parent links, whose tokens are a well-nested forest for
every text and do not depend on white space (`Whitespace`); `Trees` and `Tbc` are the `.tbc` writer
and reader, which undo each other exactly for the programs `Tbc.PlainProgram` describes; `Numbers`
is the text of numbers with their fifteen digits.

**Distributed protocols.** `Cache` (invalidation through a shared event log, with operations
of many instances interleaved at each call into the backplane), `SingleFlight`, `Hubs`
(presence, rooms and messages replicated through a sequenced, trimmed log), `Queue` (a
connection's ordered queue and replay), `Jobs` (competing workers of the SQL job
queue), `Sessions` (rotation of refresh tokens), `Rbac` and `Limiter` (sliding
windows). Each is a step system with theorems about every run, next to classes that make the
steps as the program does. What single operations promise is said apart from the steps as well:
who is connected and for how long, which jobs can still run, which sessions and tokens are good.

## Where the code does less than it is documented or expected to do

The model follows the code. `Limits`, `ForEach` and the protocol modules show each case and,
where it can be decided before the call, exactly when it arises.

- A `continue` in a `para` goes back to the test without stepping the index, so the same element
  comes again. The repository's own example `exemplos/v211/02_para_em_com_pare_continue.trm`
  therefore never gets past the element it means to skip (`ForEach.GuardedContinueRepeats`).
- `retorne` in a `tente` ends the function without `finalmente` (`Limits.ReturnSkipsFinally`).
- `pare` and `continue` that leave a `tente`, from any of its parts, leave its handler in place, in
  the phase of that part; nothing else does (`Limits.JumpLeavesHandler`). The preservation theorem
  asks that no loop jump leaves a `tente` (`Syntax.NoCross`); it is the only condition on
  statements beyond semantic validation. With such a jump in a `finalmente` beside a `pegue`, even
  the patching goes wrong, and the jump after `pegue` stays a hole
  (`Lowering.ScanFindsItsJump` and `Validation.CompileSource`, both directions).
- In `src/trama/vm.py`, `{}` takes the whole operand stack unless the stack is empty
  (`Limits.EmptyMapExact`), and a pending `nulo` is lost (`Limits.PendingExact`). For this
  machine the theorem asks that `{}` is written where the stack is empty (`Syntax.MapsOk`).
- `limpar` leaves the shared store alone: right after it, a read of a cleared key gives what the
  shared store holds, so nothing comes back exactly when the shared store held nothing of
  the namespace (`Cache.ClearExact`); a run shows it (`Cache.ClearedComesBack`).
- Choosing a job and claiming it are two statements. The attempts are right in every state exactly
  when every claim still finds the number of attempts that was chosen (`Jobs.CountedExact`), and then
  the retries bound the claims; a run shows the other case (`Jobs.StaleChoice`).
- Exchanging a blocked refresh token is refused after the session has moved on to a new id. That is
  exactly when presenting the current token leaves no exchangeable one, apart from new tokens with a
  negative lifetime (`Sessions.StrandedExact`), and it stays so until another is issued
  (`Sessions.StaysStranded`). The lock is released in between, so that two presentations of one token
  can both be refused (`Sessions.BothRefused`).
- A number of sixteen digits is written with fifteen; it is read back exactly when the last digit
  is zero (`Numbers.Back`).
- Rooms are counted under the channel's name, a colon and the room's name, so that a colon in the
  name of a channel can make two rooms share one limit (`Limiter.RoomsApart`, `Limiter.RoomsConfused`).
- A control character other than newline, carriage return and tab is written into the `.tbc` file as
  it is, which JSON does not allow (`Tbc.EscapedMeans`).
- A clock that runs backwards lets more requests through than the limit (`Limiter.ClockMatters`). The
  call that does it reaches back, within one window, to a call that was forgotten (`Limiter.BreaksExactly`).

## Model

| member | source | states |
|---|---|---|
| Semantics.Eval | src/trama/vm.py:158-234 | an expression ends in one value, an exception, a fatal error or no answer, never in a jump |
| Semantics.Exec | src/trama/vm.py:149-355 | a statement ends in one of the six statement outcomes and never leaves a value |
| Semantics.Resumed | src/trama/vm.py:314-319 | after `finalmente` the pending exception is raised again unless `finalmente` itself ends otherwise |
| Semantics.Iterate | src/trama/compiler.py:206-247 | read as visits, a `para` asks for the length and the element before each turn and keeps every jump of its body |
| Scopes.LandsNearest | src/trama/vm.py:36-53 | a name is found in the nearest scope outward that binds it, and assigning it changes that name in that scope and nothing else |
| Scopes.LandsLocal | src/trama/vm.py:43-53 | a name that no scope outward binds is not found, and assigning it binds it in the local scope and changes nothing else |
| Scopes.NearestOrNone | src/trama/vm.py:36-53 | one of the two is always the case |
| Scopes.SetThenGet | src/trama/vm.py:36-53 | what is assigned is found where it was assigned and, if a scope around binds the name, there too |
| Scopes.OtherNames | src/trama/vm.py:36-53 | an assignment is not seen in any other name, wherever one looks |
| Scopes.Binds | src/trama/vm.py:136-144 | every parameter has the last argument given under its name |
| Scopes.BindsOnly | src/trama/vm.py:136-144 | a call binds its parameters and nothing else |
| Scopes.Increments | src/trama/vm.py:136-147 | calling a function that adds one to a variable of the function around it does that and nothing else |
| Scopes.Counter | src/trama/vm.py:43-53 | a function that declares such a function and calls it n times returns n, wherever it runs |
| Operations.Evaluates | src/trama/compiler.py:321-393 | operands are evaluated once each, from left to right, each with the variables as the one before left them, keys before their values, and the first that gives no value ends the expression |
| Operations.Arithmetic | src/trama/vm.py:167-180 | sums of integers are built up by ones, products from sums, and differences and signs undo sums |
| Operations.Ordering | src/trama/vm.py:457-470 | the six comparisons of integers are one total order and its variants |
| Operations.Indexing | src/trama/vm.py:191-197 | an index counts from the front or back from the end, around the list once, and is otherwise an error of the host |
| Operations.FalseValues | src/trama/vm.py:261-264 | of the values the machine knows itself, `nulo`, `falso`, nought, the empty text and the empty list are false and no others |
| Operations.ReadAndCalculated | src/trama/parser.py:251-392 | every expression of integers, signs, sums, differences and products that is written and read again evaluates to its value |
| Operations.OneCalculation | src/trama/parser.py:254-294 | `2 - 3 * 4 - -5` is read and evaluates to -5 |
| Operations.Literals | src/trama/parser.py:329-352 | each literal and each name is read as itself |
| Operations.Operators | src/trama/parser.py:254-284 | each operator between two numbers is read as its operation |
| Operations.OneComparison | src/trama/parser.py:254-268 | `1 < 2 == 3 < 4` compares two comparisons |
| Operations.OneChain | src/trama/parser.py:286-327 | `-f(1)[2]` negates what `f(1)` holds at 2 |
| Behaviour.FactorialOf | src/trama/vm.py:136-147 | the recursive factorial function called with any number returns its factorial and changes no variable |
| Behaviour.SumsUp | src/trama/compiler.py:189-204 | a counting loop adds up the numbers from any number down to one |
| Behaviour.CaughtIsThrown | src/trama/vm.py:321-355 | `pegue` gets what was thrown, under its name, in the local scope only |
| Behaviour.ThrownByCall | src/trama/vm.py:265-276 | an exception of a called function reaches the `pegue` of its caller where exceptions leave functions, and else ends the run |
| Behaviour.FinallyRuns | src/trama/vm.py:309-319 | `finalmente` runs after a normal end and after an exception, which goes on afterwards |
| Behaviour.PrincipalRuns | src/trama/vm.py:121-130 | a program that declares `principal` gives what that returns |
| Behaviour.JumpsAreOwn | src/trama/compiler.py:305-317 | only a statement that holds a loop jump of its own can end in one, whatever it runs |
| Behaviour.NoStrayJumps | src/trama/semantic.py:735-776 | no run of an accepted body ends in a `pare` or `continue` |
| Bytecode.CompS | src/trama/compiler.py:122-317 | the code of a statement has a length that does not depend on where it stands or on the loop around it |
| Bytecode.TryPieces | src/trama/compiler.py:249-303 | the layout of a `tente`: handler, block, `pegue`, `finalmente`, and where each begins and jumps to |
| Machine.StepsAdd | src/trama/vm.py:149-157 | running on from where a run has got to is one longer run |
| Machine.Halted | src/trama/vm.py:265-276 | a machine that has halted stays as it is |
| Preservation.SimE | src/trama/compiler.py:321-393 | the code of an expression leaves exactly its value on top of the old operand stack, or raises or fails as the expression does |
| Preservation.SimOp | src/trama/vm.py:169-230 | with the values of the parts on the stack, the last instruction does what the operation means |
| Preservation.SimInvoke | src/trama/vm.py:136-147 | a call runs the callee's code in a new frame under its closure and brings back the outcome of its body |
| Preservation.SimReturn | src/trama/vm.py:265-276 | the callee's return, fall-through or escaping exception reaches the caller as the policy says |
| Preservation.SimS | src/trama/compiler.py:122-317 | the code of any statement reaches its end, the loop exit, the loop start or the end of the frame as the outcome says, with the same heap, the old handlers, and the old stack as a prefix |
| Preservation.SimSs | src/trama/compiler.py:122-317 | the same for a list of statements, with nothing left on the stack if no `tente` is involved |
| Preservation.SimWhile | src/trama/compiler.py:189-204 | a loop runs turn after turn as its meaning does, and keeps every jump of its body |
| Preservation.SimFor | src/trama/compiler.py:206-247 | a `para` runs as the loop over its hidden iterable and index does |
| Preservation.SimTry | src/trama/compiler.py:249-303 | a `tente` that no loop jump leaves runs its block under its own handler and gives back the handlers as they were |
| Preservation.SimTryIn | src/trama/compiler.py:249-317 | any `tente`: a loop jump out of one of its parts reaches its target with the handler of that part left on the old ones; every other outcome is as the meaning says |
| Preservation.SimCatch | src/trama/vm.py:321-355 | an exception of the block reaches `pegue` with its name bound locally, whatever residue is on the stack |
| Preservation.SimFinally | src/trama/vm.py:309-319 | `finalmente` runs once, with or without a pending exception; its own exception replaces the pending one |
| Preservation.SimSettle | src/trama/vm.py:285-307 | after block and `pegue`, normal ends and exceptions pass through `finalmente`, other outcomes do not |
| Preservation.Dropped | src/trama/vm.py:321-355 | a handler with nothing left to offer is dropped and the exception goes to the next one |
| Preservation.Taken | src/trama/vm.py:321-355 | a handler in the right phase takes the exception to its `pegue` or `finalmente` |
| Preservation.NoJumpCode | src/trama/compiler.py:305-317 | code without a loop jump of its own does not depend on the loop around it |
| Theorems.TopRun | src/trama/vm.py:132-147 | enough steps decide a body as its meaning does, and a body out of fuel keeps the machine busy at least that long |
| Theorems.TopEnds | src/trama/vm.py:121-130 | the top level is followed by `principal` if that is a function, and then by nothing |
| Theorems.MachineFollows | src/trama/vm.py:118-276 | the machine follows the meaning of both parts of a program, however much fuel is given |
| Theorems.CompilationPreservesMeaning | src/trama/compiler.py:74-393 | a program has an answer exactly when its compiled form halts with that answer |
| Theorems.SameEnd | src/trama/vm.py:118-276 | two runs of the machine that have gone far enough end alike |
| Theorems.OneAnswer | src/trama/vm.py:118-276 | the answer does not depend on the fuel that finds it |
| Theorems.NeverStuck | src/trama/vm.py:149-355 | no reachable configuration pops an empty stack, meets a marker without its handler or an unpatched jump |
| Lowering.PatchedAt | src/trama/compiler.py:63-65 | patching changes exactly the listed instructions |
| Lowering.LastHole | src/trama/compiler.py:283-293 | the scan gives the last jump that is still a hole, or none |
| Lowering.ScanFindsItsJump | src/trama/compiler.py:283-293 | with `pegue` and `finalmente`, the scan finds the jump after `pegue` exactly when `finalmente` has no loop jump of its own |
| Lowering.HolesOf | src/trama/compiler.py:305-317 | statements leave a hole exactly when a loop jump leaves them |
| Lowering.LoopPatched | src/trama/compiler.py:189-247 | a loop's raw code with its exit and its waiting jumps patched is the code of the loop |
| Lowering.ClosedTargets | src/trama/compiler.py:189-317 | statements whose loop jumps all stay inside have no hole and no address outside, wherever they stand |
| Lowering.FlattenSnoc | src/trama/compiler.py:386-393 | map entries are evaluated key before value, in order |
| Compiler.TryCode | src/trama/compiler.py:249-303 | a raw `tente`, its two jumps and its handler patched in the order of the source, is the code of the `tente` |
| Compiler.FunctionCompiler.Emit | src/trama/compiler.py:59-61 | appends one instruction and gives its position |
| Compiler.FunctionCompiler.Patch | src/trama/compiler.py:63-65 | replaces the argument of one emitted instruction and nothing else |
| Compiler.FunctionCompiler.PatchJumps | src/trama/compiler.py:198-204 | patches every listed jump and no other instruction |
| Compiler.FunctionCompiler.CloseLoop | src/trama/compiler.py:198-204 | the exit test and every `pare` get the end of the loop, every `continue` its start, and the loop is no longer open |
| Compiler.FunctionCompiler.FindHole | src/trama/compiler.py:283-293 | finds the last jump that is still a hole |
| Compiler.FunctionCompiler.PatchTry | src/trama/compiler.py:280-303 | the three patches of a `tente` in their order |
| Compiler.ProgramCompiler.CompileExpr | src/trama/compiler.py:321-393 | appends exactly the expression's code |
| Compiler.ProgramCompiler.CompileStmt | src/trama/compiler.py:122-317 | succeeds exactly when loop jumps have a loop; what was emitted stays; with good scans code, open loops, counters and functions are what the numbered statement gives, otherwise a hole is lost |
| Compiler.ProgramCompiler.CompileIf | src/trama/compiler.py:174-187 | both branches, the test's hole and the jump over `senao` end up as in the code of the `se` |
| Compiler.ProgramCompiler.CompileWhile | src/trama/compiler.py:189-204 | the emitted and patched loop is the code of the loop |
| Compiler.ProgramCompiler.CompileFor | src/trama/compiler.py:206-247 | the emitted and patched `para` is the code of the `para` with fresh hidden names |
| Compiler.ProgramCompiler.CompileTry | src/trama/compiler.py:249-303 | the emitted and patched `tente` is the code of the `tente`, under the condition of the scan |
| Compiler.ProgramCompiler.CompileFunction | src/trama/compiler.py:102-127 | a function body is compiled on its own and stored under a fresh code number |
| Compiler.ProgramCompiler.Compile | src/trama/compiler.py:74-92 | accepts exactly the programs whose loop jumps have a loop; with good scans the result is the code and table of the numbered program, otherwise some jump stays a hole |
| Strays.DidTry | src/trama/compiler.py:249-303 | a `tente` loses a hole exactly as its parts do, and one more when `finalmente` holds a loop jump beside a `pegue` |
| Strays.DidLoop | src/trama/compiler.py:189-204 | closing a loop fills its own jumps and none of the holes that were lost |
| Strays.DidFunction | src/trama/compiler.py:102-120 | a hole lost in a function's body stays in its finished code, and no finished function changes |
| Programs.KeepsAll | src/trama/compiler.py:94-100 | numbering changes neither loop jumps nor `tente` nor map literals |
| Programs.OnlyNumbersAll | src/trama/compiler.py:94-100 | numbering changes the numbers of functions and loops and nothing else |
| Programs.NumbersBetweenAll | src/trama/compiler.py:94-100 | the code numbers of a piece of program lie between the counters before and after it, so none is used twice |
| Programs.OwnNumberAll | src/trama/compiler.py:102-120 | every function declared anywhere is found in the table under its own number, with its own parameters and body |
| Programs.NoCrossScansAll | src/trama/compiler.py:283-293 | when no loop jump leaves a `tente`, every backward scan finds its own jump |
| Programs.ProgramFaithful | src/trama/semantic.py:619-776 | an accepted program whose loop jumps stay inside their `tente` meets what preservation needs, in every one of its functions |
| Programs.CompileAndTrust | src/trama/compiler.py:74-92 | what the imperative compiler makes of a program means on the machine what the program means, and never gets stuck |
| Programs.RunProgram | src/trama/vm.py:118-147 | compiling and running a program ends only with the answer of its source |
| Programs.NoHoleLeft | src/trama/compiler.py:189-317 | the compiling function's code of an accepted program has no hole and no address outside; what the compiler itself leaves is in `Validation.CompileSource` |
| VirtualMachine.FrameState.EndBlock | src/trama/vm.py:285-307 | the end of a block finds its handler on top in the right phase and goes to `finalmente` or drops it |
| VirtualMachine.FrameState.EndFinally | src/trama/vm.py:314-319 | drops the handler and raises what was pending, as the policy keeps it |
| VirtualMachine.FrameState.HandleException | src/trama/vm.py:321-355 | unwinds handlers until one takes the exception, binding the catch name in the local scope |
| VirtualMachine.ExecuteOne | src/trama/vm.py:158-264 | one instruction changes frame and heap as one step of the machine does |
| VirtualMachine.CallValue | src/trama/vm.py:357-372 | a call of a user function, a built-in or anything else ends as the machine's steps do |
| VirtualMachine.RunFrame | src/trama/vm.py:149-276 | the fetch loop ends a frame exactly as some number of machine steps below any caller does |
| Scoping.ExecAllEnds | src/trama/vm.py:43-53 | through any run, closures keep to scopes of the function around them, and hidden loop variables are written only by their own loop in its own scope |
| Scoping.SetOk | src/trama/vm.py:43-53 | assigning a hidden variable always binds it in the scope that assigns it; where other names land is in `Scopes.LandsNearest` |
| Scoping.NotAbove | src/trama/vm.py:36-53 | a hidden variable of a function's loop is never found above its scope |
| Scoping.SomeHost | src/trama/vm.py:115-116 | there are hosts that give back only functions they were given |
| ForEach.ForVisits | src/trama/compiler.py:206-247 | a `para` over an iterable with known length and elements does what visiting them in order does |
| ForEach.VisitsOnce | src/trama/compiler.py:206-247 | without a `continue` of its own, the body runs once for each element, in order |
| ForEach.ContinueRepeats | src/trama/compiler.py:234-245 | a body that only says `continue` never gets past the first element, whatever the fuel |
| ForEach.GuardedContinueRepeats | src/trama/compiler.py:234-245 | a body that starts with `se x == w: continue` never gets past an element equal to `w` |
| Lexical.NumberedIsLexical | src/trama/compiler.py:94-120 | every program with user names of its own is lexically scoped once numbered |
| Lexical.StartIsLexical | src/trama/vm.py:102-116 | the heap a program starts with meets the scoping invariant |
| Lexical.ParaVisits | src/trama/compiler.py:206-247 | a `para` of a program, in any lexically scoped heap, visits its elements in order, each once without a `continue` of its own |
| Iteration.LoopIterates | src/trama/compiler.py:206-247 | the loop made of a `para`, from any number on and for any iterable, runs as the visits do |
| Iteration.SameExecAll | src/trama/compiler.py:206-247 | in every lexically scoped heap both readings of `para` give statements the same run, calls and nested loops included |
| Iteration.ProgramIterates | src/trama/compiler.py:206-247 | for every program with user names of its own, top level and `principal` run the same in both readings of `para` |
| Iteration.CompiledIterates | src/trama/compiler.py:74-393 | with every `para` read as its visits, a program has an answer exactly when its compiled form halts with it |
| Iteration.IterateVisits | src/trama/vm.py:191-197 | where the host knows the elements, the visits are to those elements in order |
| Limits.EmptyMapExact | src/trama/vm.py:208-218 | an empty map literal is built right exactly when the machine takes no operand for it or the stack is empty |
| Limits.PendingExact | src/trama/vm.py:314-319 | the code of a `tente`, after a normal `finalmente`, raises the pending exception again exactly when the machine keeps `nulo` or it is not `nulo`, and else goes on after the `tente` |
| Limits.ReturnSkipsFinally | src/trama/vm.py:265-266 | `retorne` in the block or in `pegue` ends the frame on the machine with the heap that part left, `finalmente` not run |
| Limits.JumpLeavesHandler | src/trama/compiler.py:305-317 | the frame leaves a `tente` with its old handlers exactly when no part ends in a jump of the loop around it; otherwise it is at the target with one handler more, in the phase of that part |
| Validation.ValidateAll | src/trama/semantic.py:735-776 | finds no problem exactly when loop jumps are under a loop of their function and `retorne` in a function |
| Validation.FineHasNoneAll | src/trama/semantic.py:735-776 | statements are accepted exactly when none of the three problems is anywhere in them |
| Validation.CompileSource | src/trama/compiler.py:400-407 | what validation accepts the compiler never refuses; every jump is patched and every address lies inside exactly when no `finalmente` beside a `pegue` holds a loop jump, and then the code is that of the numbered program |
| Parser.ExprParser.ParseLevel | src/trama/parser.py:254-284 | a loop over the operators of a level reads what the grammar reads and leaves the cursor behind it, or fails where it fails |
| Parser.ExprParser.ParseUnary | src/trama/parser.py:286-294 | signs and `aguarde` bind tighter than operators and looser than calls |
| Parser.ExprParser.ParseChain | src/trama/parser.py:296-327 | calls and indexings pile up from left to right, over newlines before a bracket |
| Parser.ExprParser.ParsePrimary | src/trama/parser.py:329-392 | literals, names, lists, maps and parentheses as the grammar has them |
| Parser.ExprParser.ParseItems | src/trama/parser.py:296-327 | arguments and list elements up to and past the closing token |
| Parser.ExprParser.ParseEntries | src/trama/parser.py:371-389 | map entries up to and past the closing brace |
| Show.ReadsBack | src/trama/parser.py:251-392 | every expression written with minimal parentheses is read back as itself, in front of anything that does not go on with it |
| Show.ReadsLevel | src/trama/parser.py:254-284 | where a level is expected, the parser reads the written expression and then looks for more operators of that level |
| Newlines.SkipsNewlines | src/trama/parser.py:403-405 | skipping passes all the newlines there are and nothing else |
| Newlines.LevelAlike | src/trama/parser.py:251-392 | any tokens that are read as an expression are read as the same one when newlines are put between them behind opening brackets, commas and colons, in front of commas, colons and closing brackets, and one in front of a bracket that calls or indexes |
| Newlines.ReadsBackOverLines | src/trama/parser.py:296-392 | every expression written over several lines in this way is read back as itself, whatever comes behind that does not go on with it |
| Newlines.TwoNewlinesEnd | src/trama/parser.py:296-327 | two newlines end an expression even if a bracket follows |
| OnePass.Emitter.EmitLevel | native/trama_native.c:1858-1876 | sums and products are emitted as the parser groups them |
| OnePass.Emitter.EmitPostfix | native/trama_native.c:1814-1846 | a chain of calls and indexings is emitted as its tree would be |
| OnePass.Emitter.EmitPrimary | native/trama_native.c:1773-1812 | literals, names and parentheses; fails where there is none |
| OnePass.CompileExpression | native/trama_native.c:1773-1886 | on every list of shared tokens, one pass stops where the parser stops and has emitted what the tree compiler emits, up to 1 and 0 for booleans, and fails exactly where the expression is bad or outside the native grammar |
| OnePass.SameTruth | native/trama_native.c:1785-1795 | the numbers that stand for booleans are as true as those |
| Json.Tokenizer.ParseString | native/trama_native.c:100-128 | a string token is what lies between the quotes, a backslash hiding the character after it (section 7 of RFC 8259), or the error code |
| Json.Tokenizer.ParsePrimitive | native/trama_native.c:72-98 | a primitive ends in front of a separator, or is an error |
| Json.Tokenizer.Close | native/trama_native.c:149-163 | a closing bracket ends the innermost open token if the kinds match, and is an error otherwise |
| Json.Tokenizer.Parse | native/trama_native.c:130-187 | the pass over the text gives the tokens of the specification or its error |
| Json.TokensAreForest | native/trama_native.c:72-187 | for every text, the tokens of a success are a well-nested ordered forest with right child counts, within the capacity |
| Json.TokSkip | native/trama_native.c:668-674 | gives the index past everything that starts before the token's end |
| Json.SkipsSubtree | native/trama_native.c:668-674 | in a forest, what is skipped is exactly the token and its descendants |
| Whitespace.MakesNoDifference | native/trama_native.c:130-187 | one more white-space character between two tokens (section 2 of RFC 8259) gives the same tokens, those behind it one further on, or the same error |
| Trees.StringExact | native/trama_native.c:100-128 | a string ends at the first quote that no backslash hides |
| Trees.PrimitiveExact | native/trama_native.c:72-98 | a primitive holds printable ASCII characters up to the first delimiter or the end of the text, and is an error otherwise |
| Trees.TokenizesTree | native/trama_native.c:130-187 | tokenizing the text of a value gives exactly its tokens, or runs out exactly when they do not fit |
| Trees.SkipsTree | native/trama_native.c:668-674 | skipping a value's first token passes exactly its tokens |
| Tbc.Writer.WriteString | native/trama_native.c:2056-2073 | writes the escaped text between quotes |
| Tbc.Writer.WriteArg | native/trama_native.c:2075-2098 | writes an argument as the text of its value |
| Tbc.Writer.WriteFunction | native/trama_native.c:2100-2121 | writes a function as the text of its record |
| Tbc.Writer.WriteProgram | native/trama_native.c:2123-2141 | the file is the text of the program's value and a newline |
| Numbers.NumberBack | native/trama_native.c:689-700 | what is read of a number written with fifteen digits |
| Numbers.Back | native/trama_native.c:2075-2080 | a number comes back exactly when it is below sixteen digits or ends in zero |
| Numbers.RoundsToNearest | native/trama_native.c:2075-2080 | the fifteen digits written are the nearest there are, and even if two are equally near |
| Numbers.DecimalBack | native/trama_native.c:702-705 | an address comes back from its decimal digits |
| Tbc.ObjGet | native/trama_native.c:676-687 | gives the value after the first string of an object that equals the key, which may be a value |
| Tbc.ParseInstr | native/trama_native.c:707-772 | reads an instruction with the argument form its shape and opcode ask for |
| Tbc.ParseFunction | native/trama_native.c:774-830 | reads a function's name, parameters, flag and code |
| Tbc.ParseProgram | native/trama_native.c:832-874 | reads a program, or nothing when tokens run out or parts are missing |
| Tbc.LookupRecord | native/trama_native.c:676-687 | in a written record, looking a key up finds the value of that key unless an earlier string value equals it |
| Tbc.ProgramText | native/trama_native.c:2123-2141 | the text of a program, with its two keys |
| Tbc.FunctionText | native/trama_native.c:2100-2121 | the text of a function, with its four keys in order |
| Tbc.EscapedIs | native/trama_native.c:2056-2073 | a text with nothing to escape is the escaped form of itself and of no other text |
| Tbc.EscapedMeans | native/trama_native.c:2056-2073 | read by section 7 of RFC 8259, the written text stands for the original, unless that holds a control character that is not escaped |
| Tbc.ReadsBack | native/trama_native.c:707-874 | for every program, what is read from the written file: texts stay escaped, numbers keep fifteen digits, and a name equal to a later field is taken for that field |
| Tbc.RoundTrip | native/trama_native.c:2056-2141 | writing and reading give the program back exactly when its texts need no escape, its numbers keep fifteen digits, no name is taken for a field, and its tokens fit |
| Tbc.Reload | native/trama_native.c:707-874 | the imperative writer and reader do what the round trip says |
| Cache.SyncFreshens | src/trama/cache_runtime.py:220-250 | after synchronizing, an instance holds no value that an invalidation was to remove for good |
| Cache.RemoveKeeps | src/trama/cache_runtime.py:322-380 | emptying the shared store of what matches keeps the invariant of the whole system |
| Cache.PublishKeeps | src/trama/cache_runtime.py:119-144 | a published event awaits every instance that has not synchronized since |
| Cache.InvalidationDies | src/trama/cache_runtime.py:322-380 | when an invalidation returns, every matching write that was complete before it was called is gone for good |
| Cache.Freshness | src/trama/cache_runtime.py:73-380 | no read called after an invalidation has returned gives a matching value whose `definir` was complete before the invalidation was called, in every interleaving of any number of instances |
| Cache.WrittenIsRead | src/trama/cache_runtime.py:252-316 | in every interleaving, what a `definir` wrote is what a read gets that asks the shared store later, unless the key was written again, invalidated or expired |
| Cache.DefineReads | src/trama/cache_runtime.py:252-271 | after a `definir` its own instance reads the new value, every other one too unless it holds an old one, and no other key reads differently anywhere |
| Cache.InvalidateReads | src/trama/cache_runtime.py:322-380 | after an invalidation every instance reads nothing of what it concerns, and everything else as before |
| Cache.ReadReads | src/trama/cache_runtime.py:273-316 | a read makes no difference to any later read |
| Cache.ReadStays | src/trama/cache_runtime.py:273-316 | an instance keeps what it has read even when the shared store loses it |
| Cache.ClearedReads | src/trama/cache_runtime.py:382-413 | whenever a `limpar` returns, a read of a cleared key made in one go by any idle instance gives exactly what the shared store holds |
| Cache.ClearExact | src/trama/cache_runtime.py:382-413 | nothing of a namespace is read right after `limpar` exactly when the shared store held nothing of it before the call |
| Cache.ClearedForGood | src/trama/cache_runtime.py:382-413 | a complete write that the shared store did not hold when `limpar` returned is given to no later read, in every interleaving |
| Cache.ClearedComesBack | src/trama/cache_runtime.py:382-413 | a run in which the shared store holds a cleared value and it is read again |
| Cache.Instance.Sync | src/trama/cache_runtime.py:220-250 | applies exactly the events published since the last time, in order |
| Cache.Instance.Define | src/trama/cache_runtime.py:252-271 | the value is stored here and, if the backplane is up, in the shared store |
| Cache.Instance.Get | src/trama/cache_runtime.py:273-316 | reads here, else through the shared store, and keeps what it read |
| Cache.Instance.Invalidate | src/trama/cache_runtime.py:322-380 | removes here and in the shared store and publishes one event |
| Cache.Instance.Clear | src/trama/cache_runtime.py:382-413 | empties the namespace here, publishes one event, and leaves the shared store alone |
| Cache.Backplane.Publish | src/trama/cache_runtime.py:119-139 | appends one event while the backplane is up |
| Cache.Backplane.Collect | src/trama/cache_runtime.py:141-149 | gives the events after a number, in order |
| Cache.Uninterrupted | src/trama/cache_runtime.py:252-413 | the steps of a define, read, invalidation or clearing made in one go do what the method does |
| SingleFlight.OneLeader | src/trama/cache_runtime.py:465-510 | in every interleaving a key is in flight exactly when a caller leads it, and never do two lead it |
| SingleFlight.LeaderLeaves | src/trama/cache_runtime.py:493-510 | success or failure, the leader's exit removes its key and no other |
| SingleFlight.NothingLeft | src/trama/cache_runtime.py:465-510 | when every caller has returned, the table is empty |
| SingleFlight.Returns | src/trama/cache_runtime.py:465-510 | a caller leads or waits as there is a leader or not; a waiting one returns exactly when it finds the value or has a fallback and else loads by itself; a loading one returns when it is done |
| SingleFlight.Flights.Enter | src/trama/cache_runtime.py:469-479 | the caller leads exactly when the key was not in flight |
| Hubs.RemoteIsReplay | src/trama/realtime_core.py:369-401 | in every run, what a hub that lost nothing believes about the others is the replay of their events up to its applied number |
| Hubs.FullySynced | src/trama/realtime_core.py:944-973 | a hub that has read everything believes about every connection and room of every other hub exactly what that hub holds |
| Hubs.Converges | src/trama/realtime_core.py:852-861 | sorted by cursor, the history of a hub that has read everything is the log's messages, each once |
| Hubs.SameHistories | src/trama/realtime_core.py:974-1000 | two hubs that have read everything hold the same messages |
| Hubs.KnownReads | src/trama/realtime_core.py:974-1000 | reading one event more adds its message exactly when another hub sent it |
| Hubs.OneOrder | src/trama/realtime_core.py:852-861 | messages with distinct cursors have one order only |
| Hubs.Closes | src/trama/realtime_core.py:564-588 | a closed connection is gone with all its seats and everybody else stays |
| Hubs.Seats | src/trama/realtime_core.py:590-615 | entering a room adds one seat unless the room is full, and leaving takes that seat away |
| Hubs.OpenExact | src/trama/realtime_core.py:499-588 | in every run a connection is here exactly when it was opened and has not been closed since |
| Hubs.SeatedExact | src/trama/realtime_core.py:564-615 | in every run a seat is taken exactly when its connection entered the room and has neither left it nor been closed since |
| Hubs.WithinLimits | src/trama/realtime_core.py:499-603 | in every run no hub has more connections, in all, of one address or of one user, and no room more seats, than its limits say |
| Hubs.RefusedExact | src/trama/realtime_core.py:499-562 | in every run a connection is refused exactly when its channel is unknown or one of the limits is reached |
| Hubs.LogKeeps | src/trama/realtime_core.py:52-66 | in every run the log keeps the newest events, as many as its size allows |
| Hubs.LosesExactly | src/trama/realtime_core.py:369-401 | synchronizing reads to the end of the log and loses something exactly when more events were published than the log keeps |
| Hubs.Delivered | src/trama/realtime_core.py:670-722 | a message is in the history of its hub when sent, and of every hub that synchronizes after it without loss, with its channel, text and number |
| Hubs.EventLog.Append | src/trama/realtime_core.py:52-66 | gives the next number and trims the log to its size |
| Hubs.LiveHub.Synchronize | src/trama/realtime_core.py:369-401 | takes in the events that are still there one by one, its own only by number |
| Hubs.LiveHub.Open | src/trama/realtime_core.py:499-562 | refuses unknown channels and beyond the limits in total, by address and by user; else connects and publishes |
| Hubs.LiveHub.Close | src/trama/realtime_core.py:564-588 | drops the connection with its seats and publishes |
| Hubs.LiveHub.Sit | src/trama/realtime_core.py:590-603 | refuses beyond the room's limit; else enters and publishes |
| Hubs.LiveHub.Stand | src/trama/realtime_core.py:605-615 | leaves the room and publishes |
| Hubs.LiveHub.Send | src/trama/realtime_core.py:670-722 | the cursor of a message is the number of its event, and the hub's own history holds it once |
| Queue.AlwaysOrdered | src/trama/realtime_core.py:190-214 | whatever arrives and is taken in whatever order, positive cursors never go down, and after an arrival the queue is within its limit |
| Queue.TrimEarly | src/trama/realtime_core.py:190-207 | trimming before an insertion makes no difference to what is kept after it |
| Queue.DropsSmallest | src/trama/realtime_core.py:190-207 | of too many events the front ones go, none of them larger than one that is kept |
| Queue.NewestStays | src/trama/realtime_core.py:190-207 | an arrival that no waiting event comes after is last in the queue |
| Queue.OthersStay | src/trama/realtime_core.py:190-207 | the waiting events stay as they are and in order around an arrival, the smaller cursors in front of it and the larger behind |
| Queue.Connection.Enqueue | src/trama/realtime_core.py:190-207 | inserts in front of the first larger cursor and keeps the last of too many |
| Queue.Connection.Drain | src/trama/realtime_core.py:209-214 | takes the first events out in order and leaves the others |
| Queue.Connection.Replay | src/trama/realtime_core.py:863-870 | leaves exactly the history's events above the cursor in ascending order, of too many the largest, and counts them all |
| Jobs.Lifecycle | src/trama/jobs_runtime.py:547-698 | in every interleaving of choices and claims a job has at most one owner, exactly the jobs being processed hold a lease, failed jobs have attempts left and dead ones none, and no idempotency key is used twice |
| Jobs.ClaimKeeps | src/trama/jobs_runtime.py:580-605 | a claim guarded by the waiting status takes the job from nobody |
| Jobs.ReprocessKeeps | src/trama/jobs_runtime.py:455-496 | reviving dead jobs in one step keeps all of this |
| Jobs.CountedExact | src/trama/jobs_runtime.py:547-605 | in every run the attempts equal the claims after every step exactly when every claim found the number of attempts it had chosen |
| Jobs.AtomicIsCurrent | src/trama/jobs_runtime.py:547-605 | when choosing and claiming are one transaction, every claim is up to date |
| Jobs.ClaimBound | src/trama/jobs_runtime.py:547-605 | when every claim is up to date, a job's claims equal its attempts and are at most its retries and reprocessings plus one |
| Jobs.StaleChoice | src/trama/jobs_runtime.py:547-605 | a run with stale choices: a job with one retry is claimed three times and still shows one attempt |
| Jobs.DoneForGood | src/trama/jobs_runtime.py:640-651 | a job that its owner has finished stays completed in every continuation, is never next and never claimed again |
| Jobs.StaysOver | src/trama/jobs_runtime.py:547-698 | a completed job, and a dead one that is not reprocessed, stays as it is over every continuation and is never next |
| Jobs.SucceedCompletes | src/trama/jobs_runtime.py:640-651 | success completes the job of its owner and no other |
| Jobs.FailEnds | src/trama/jobs_runtime.py:660-698 | failure kills a job whose attempts exceed its retries and makes any other eligible exactly when its wait is over |
| Jobs.ClaimOwns | src/trama/jobs_runtime.py:580-605 | a claim makes the worker the owner with a lease from the time of its choice, and nobody can take the job until it ends |
| Jobs.BackoffDoubles | src/trama/jobs_runtime.py:62-63 | the wait starts at a quarter of a second and doubles with each attempt up to two seconds |
| Jobs.EnqueueWaits | src/trama/jobs_runtime.py:285-379 | a new job is eligible from then on with no attempts; a taken key adds nothing |
| Jobs.EnqueuedFirst | src/trama/jobs_runtime.py:547-580 | of two jobs that wait, the later one is not next |
| Jobs.SomeNext | src/trama/jobs_runtime.py:547-580 | there is a next job exactly when some job is eligible |
| Jobs.ReprocessRevives | src/trama/jobs_runtime.py:455-496 | reprocessing makes exactly the listed dead jobs eligible, from then on |
| Jobs.Queue.Enqueue | src/trama/jobs_runtime.py:285-379 | adds a waiting job with no negative retries unless its idempotency key is taken |
| Jobs.Queue.ClaimNext | src/trama/jobs_runtime.py:547-605 | claims an eligible job that was created first, or leaves everything when none is eligible |
| Jobs.Queue.Finish | src/trama/jobs_runtime.py:607-698 | done, or failed with a later time, or dead once attempts exceed retries |
| Jobs.Queue.ReprocessDead | src/trama/jobs_runtime.py:455-496 | the dead jobs updated first, at most the limit of them, wait again; no other changes |
| Jobs.Queue.SelectDead | src/trama/jobs_runtime.py:465-474 | the dead jobs in the order of their last update, none left out that comes before one chosen |
| Sessions.OneExchangeable | src/trama/security/sessao.py:214-272 | in every reachable state an exchange succeeds exactly when the token is exchangeable, and at most one token of a session is |
| Sessions.ExchangedOnce | src/trama/security/sessao.py:214-272 | over a whole run no refresh id is exchanged twice |
| Sessions.StaysOutdated | src/trama/security/sessao.py:179-272 | an id that is not current never becomes current again |
| Sessions.OutdatedEndsSession | src/trama/security/sessao.py:238-244 | presenting a token with an outdated id ends its session for good |
| Sessions.ReuseEndsSession | src/trama/security/sessao.py:238-244 | presenting a token once more after its exchange ends its session for good |
| Sessions.NeverRevives | src/trama/security/sessao.py:99-129 | no step makes an inactive session active |
| Sessions.CreatedLives | src/trama/security/sessao.py:99-112 | a new session is active exactly until its time, at least a second, is over |
| Sessions.CheckExact | src/trama/security/sessao.py:99-112 | a session is said to be active exactly when it is there, active and not expired, and asking changes no other answer |
| Sessions.AliveIssues | src/trama/security/sessao.py:179-212 | when a session is said to be active, a token issued for it can be exchanged right then |
| Sessions.ExchangeGoesOn | src/trama/security/sessao.py:214-272 | the token an exchange gives out is of the same session, user and device and can be exchanged in turn, and the old one cannot |
| Sessions.AliveNoMore | src/trama/security/sessao.py:99-112 | when a session is said not to be active, no token of it can be exchanged from then on, over every run |
| Sessions.RefusalsEnd | src/trama/security/sessao.py:214-250 | an exchange refused as too late for its session or for a used token ends the session, the used token stays blocked, and one refused before that changes nothing |
| Sessions.RevokeEnds | src/trama/security/sessao.py:115-129 | revoking ends the listed sessions for good and no others |
| Sessions.BlockDenies | src/trama/security/politicas.py:36-68 | a blocked token cannot be exchanged for its time, at least a second; other tokens are not affected |
| Sessions.DeniedStrands | src/trama/security/sessao.py:245-250 | an exchange refused because the token is blocked leaves no issued token with the session's current id |
| Sessions.StaysStranded | src/trama/security/sessao.py:179-272 | until a token is issued for such a session, no exchange of one of its tokens succeeds |
| Sessions.StrandedExact | src/trama/security/sessao.py:214-272 | presenting the current token leaves no exchangeable one exactly when it is blocked or the new one gets a negative lifetime |
| Sessions.ExchangedOnceSplit | src/trama/security/sessao.py:230-252 | no refresh id is exchanged twice when exchanges overlap between the rotation and the denylist |
| Sessions.NeverRevivesSplit | src/trama/security/sessao.py:230-252 | no step of overlapping exchanges makes a session active again |
| Sessions.InOneGo | src/trama/security/sessao.py:214-272 | the two steps made one after the other are the exchange |
| Sessions.BothRefused | src/trama/security/sessao.py:238-250 | a token presented again between the two steps of its exchange: both are refused and the session ends |
| Sessions.Store.IssueRefresh | src/trama/security/sessao.py:179-212 | a new token's id becomes the session's current one |
| Sessions.Store.ExchangeRefresh | src/trama/security/sessao.py:214-272 | refusals, rotation, blocking and the new token in the order of the source |
| Sessions.Store.IsActive | src/trama/security/sessao.py:99-112 | an expired session is ended when it is looked at |
| Sessions.Store.RevokeAll | src/trama/security/sessao.py:115-129 | ends exactly the listed sessions and counts those that were active |
| Rbac.Expand | src/trama/security/rbac.py:38-49 | on any inheritance graph, cycles included, the worklist ends with exactly the reachable roles |
| Rbac.HasPermission | src/trama/security/rbac.py:56-68 | a permission is granted exactly when some reachable role carries it |
| Rbac.Monotone | src/trama/security/rbac.py:38-68 | more roles or more inheritance never take a role away |
| Rbac.LeastClosed | src/trama/security/rbac.py:38-49 | the reachable roles are the least set that holds the given ones and, with each role, those it inherits from |
| Limiter.WindowBound | src/trama/web_model.py:67-76 | over every sequence of calls with a clock that does not run back, every closed interval as long as the window holds at most the limit of accepted calls per key |
| Limiter.AllowsExact | src/trama/web_model.py:67-76 | a call is let through exactly when fewer than the limit were let through within the window up to it |
| Limiter.BreaksExactly | src/trama/web_model.py:67-76 | for every clock, the call that breaks the bound is let through into a full interval, and reaches back within a window to a forgotten call |
| Limiter.ClockMatters | src/trama/web_model.py:67-76 | a clock that falls back lets a third call through an interval with a limit of two |
| Limiter.RequestLimiter.Allow | src/trama/web_model.py:67-76 | the answer and every key's bucket are those of the whole history of calls |
| Limiter.Counts | src/trama/realtime_core.py:812-839 | counting a call under its key keeps all windows of that kind within the limit |
| Limiter.RoomExact | src/trama/realtime_core.py:812-839 | there is room under a key exactly when fewer than the limit were counted under it within the window up to now |
| Limiter.RoomsApart | src/trama/realtime_core.py:812-839 | rooms of channels without a colon in their names are counted apart |
| Limiter.RoomsConfused | src/trama/realtime_core.py:812-839 | two rooms that a colon in the name of a channel makes one |
| Limiter.MessageLimiter.Validate | src/trama/realtime_core.py:812-839 | a message passes exactly when its connection, its user and its channel's room, as far as it has them, have room; earlier windows count it even when a later one refuses |
| Limiter.MessageLimiter.PassedBounded | src/trama/realtime_core.py:812-839 | no connection, user or room gets more messages through any interval as long as the window than its limit |

## Left out

- Asynchronous execution: `aguarde` is one host operation on a value; tasks, coroutines, timeouts and threads are not modelled.
- Modules: `importe` and `exporte`, file resolution and the module cache.
- Values: numbers are integers; floating point and the texts of host errors are not modelled, and lists and maps are immutable, so changes shared between variables are not seen.
- The native machine's closures and subscripts: it stores the scope of a function value in the one shared function object (`native/trama_native.c:1522`), so that a function made twice sees the later scope, and a negative list index is fatal; the model's do neither.
- The character-level lexer and the native line-based statement scanner; programs are trees and expressions are token lists.
- Validation.ValidateAll: of `src/trama/semantic.py`, only the loop and function-context checks, not names and gradual types.
- The native limits on the length of a token's text and of nesting in C; strings and recursion are unbounded.
- Tbc.ParseProgram: of numbers, it reads what the writer writes of integers up to 2^53, where a double leaves no gaps; fractions, larger numbers and malformed ones are not modelled.
- Programs.RunProgram: a run that uses up its fuel says nothing, because the fetch loop needs a bound to terminate; `Theorems.CompilationPreservesMeaning` has no such bound.
- Theorems.CompilationPreservesMeaning: asks that no loop jump leaves a `tente`, because exactly such a jump keeps the handler (`Limits.JumpLeavesHandler`).
- Iteration.ProgramIterates: asks that the program does not bind `tamanho` and that the host gives back no function it was not given, because otherwise the loop's hidden variables can be reached.
- Cache: lifetimes are left to chance (entries here and in the shared store may vanish at any step), and the runs of the theorems have the backplane up; the classes also have it down.
- Hubs: delivery to queues, acknowledgements, and the trimming of histories by age and size.
- Jobs: what a handler does, the memory and Redis backends, and the liveness of leases (a job left in processing is never claimed again).
- Sessions: signatures and hashes; a token is an unforgeable record, identifiers are fresh, and only tokens that exist can be blocked.
- Statistics, metrics and observability of every component.
- HTTP and WebSocket transports, database drivers, storage, ORM, command line and development tools: they hold only easy members.
