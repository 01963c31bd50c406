# wasm_jit: the JIT compiler, verified

wasm_jit runs WebAssembly modules by translating each function, in one pass over its bytecode, into
x86-64 code. This project models that translator, the loader that feeds it and the machine that runs
its output, and proves that running the compiled code does what a structured WebAssembly interpreter
does.

The top of the operand stack is cached in `rax`; the other operands are in memory below `rdi`; every
open block has the operand pointer it started with on the machine stack. Forward branches are written
as placeholders and patched when their block ends; calls go through a table of function pointers that
is filled in as functions get compiled.

## How it is put together

| file | what is in it |
|---|---|
| `Words.dfy` | 32- and 64-bit words, shifts, bitwise operations |
| `Wasm.dfy` | the source language and its interpreter |
| `X86.dfy` | instructions with their lengths, the executable plane, the machine |
| `Codegen.dfy` | the instruction sequence of each operation |
| `Layout.dfy` | the code of a body when every branch target is known beforehand |
| `Fixups.dfy` | which fields refer to a label, and what patching them does |
| `Emitter.dfy` | one pass with block stack and fixup lists, on values; it produces the layout |
| `Leb.dfy`, `LebProofs.dfy` | the LEB128 readers and the integer encodings |
| `Bytecode.dfy` | fetching opcodes from bytes |
| `Emission.dfy`, `Closure.dfy` | compiling from bytes; compiling callees until none is missing |
| `JitSpec.dfy`, `JitWriter.dfy` | the emitter as an object that writes and patches a plane in place |
| `Once.dfy` | every field waits for one label, once |
| `OpSim.dfy`, `ControlSim.dfy`, `TableSim.dfy`, `CallSim.dfy`, `Pieces.dfy`, `Sim.dfy` | the machine keeps the representation of interpreter frames, piece by piece |
| `Fragment.dfy`, `Meaning.dfy` | the supported bodies, and the induction over them |
| `Endless.dfy` | runs that do not end |
| `Between.dfy`, `Points.dfy`, `Boundaries.dfy` | runs between the starts of opcodes, and the addresses control passes through there |
| `Stacking.dfy`, `OpcodeSteps.dfy`, `BodySteps.dfy`, `Depth.dfy`, `Transfers.dfy` | the machine stack, in every reachable state of any well-formed code |
| `Shapes.dfy`, `Spots.dfy` | the operand types validation gives at every address of a function's code |
| `Frames.dfy`, `TypedSteps.dfy`, `TypedBlocks.dfy`, `TypedCalls.dfy`, `TypedFns.dfy`, `TypedRuns.dfy` | values of those types in registers and memory, in every reachable state |
| `Typing.dfy`, `Selection.dfy` | validation, and why validated programs do not get stuck; describing part of a module |
| `Sections.dfy`, `WasmContext.dfy`, `Canonical.dfy` | the section loaders and canonical types |
| `EndToEnd.dfy`, `Runtime.dfy` | from the sections of a module to the result of a call from outside |
| `Encoding.dfy`, `Payloads.dfy`, `Sizes.dfy` | an encoder for modules, and bounds on the size of code and encodings |
| `StraightLine.dfy`, `Factorial.dfy` | two programs of a specification test, from the bytes of their module to their result |
| `Divergence.dfy`, `WrongResults.dfy`, `TypeLoss.dfy` | where the emitted code is wrong, exactly when, and validated programs that show it |
| `Heap.dfy` | growing linear memory |

The main results, in the order they build on one another:

1. `OpSim.SimOp`: the code of every integer, local, constant, drop and select operation keeps the
   relation between interpreter frame and registers, for both widths, traps included.
2. `Emitter.EmitFunction`: one pass with patching writes exactly the code in which every branch goes
   to its label; `JitWriter.JitWriter.CompileFn` does the same in place on an array of bytes.
3. `Depth.StackDepth`: in every state that running compiled code can reach, from any registers and
   memory, the start of an opcode under k labels has exactly k saved words above the return address of
   its function, and the machine never gets stuck. Bodies need only be well-formed: this holds of code
   that was never validated, and of the code that computes wrong results.
4. `Meaning.SimFn`: a compiled function whose callees are compiled returns or traps as the
   interpreter says, for every call depth and every number of loop iterations.
5. `Endless.StopsAlike`: the converse. While the interpreter needs more fuel the machine keeps running,
   and whenever the machine has stopped it has stopped as the interpreter does.
6. `TypedRuns.TypeSafety`: in every state at the start of an opcode that a supported function of a valid
   module can reach, in runs that end and in runs that do not, every i32 in `rax`, an operand slot or a
   local is below 2^32. There are operands and locals of exactly the types that validation gives them
   there, on every frame of the running function and of every function waiting for it.
7. `Closure.CompileCloses`, `Closure.CompileReaches`: compilation ends, compiles only what is
   reachable, and leaves no call to a missing function, on any bytecode.
8. `Runtime.Open`, `Runtime.ExternCallFn`: 2 to 7 together with loading and decoding. A call from
   outside, now or after any number of other calls, behaves as its bytecode does in the interpreter,
   keeps the stack discipline and keeps the types. The module may hold other functions: only those
   described count. For validated functions `Runtime.ValidatedRuns` says what that leaves: a fault where
   WebAssembly traps, a return with a result of the declared type, or a run without end.
9. `Factorial.CallFactorial`: the recursive and the iterative program of fac.wast, loaded from the bytes
   of their sections into a plane of the original's size, compiled and run, return n! modulo 2^64 for
   every n.

A description of a module is a list of functions in which `Import` stands for an import and for any
function that is left out.

The interpreter is bounded by a fuel argument; the theorems quantify over all fuel. An outcome `Stuck`
is what validation rules out (`Typing.SoundInvoke`), and nothing is claimed for it.

### What the code gets wrong

`Fragment.Supported` describes the bodies that results 4, 5 and 6 are about. Its clauses exclude three
things the emitter does not translate correctly; `Divergence.dfy` proves for each exactly when the frame
is wrong, and `WrongResults.dfy` has for each a validated function that returns the wrong number, as a
consequence (`ElseReturnsWrong`, `LoopReturnsWrong`, `TableReturnsWrong`).

* `else` leaves the then-arm as if the block had a result. A void if with an else-arm whose then-arm
  falls through leaves one slot too many.
* A branch uses the result type of its block, also for loops, whose label carries nothing.
* A branch table uses the carry flag of its default for every target.

With the frame go the types: `TypeLoss.ElseTypes` and `TypeLoss.BranchTypes` have the exact conditions,
and `TypeLoss.WidenSees` is a validated function that reaches `i64.extend_u/i32` with any given i64 in
`rax`, where an i32 is expected.

`Supported` excludes a little more than these. Whether a then-arm falls through is decided from its own
instructions (`Fragment.NoFall`): a void if with an else-arm is left out when its then-arm ends in a
block, an if or a loop that never falls through, although the code for it is right.

Elsewhere:

* A memory of exactly 65536 pages, which the format allows, has size 0 when a call starts, because the
  product is taken in 32 bits (`Heap.EnteredSize`).
* The signed 64-bit LEB128 reader fills in the sign with a shift count reduced modulo 32
  (`LebProofs.SignedRoundTrip` has the exact condition).
* The number of results of a function type is read as one byte although the format allows padding
  (`Sections.TypeRoundTrip`).

## Model

| member | source | states |
|---|---|---|
| OpSim.SimOp | webasmRT/webasmRT/JitWriter.cpp:234-356 | the emitted code of every plain operation, run on a machine that represents a frame, ends representing the interpreter's next frame, leaves memory below the frame alone, and faults exactly on a trap; i32 values stay zero-extended, so extend_u is right to emit nothing |
| OpSim.CompareFlags | webasmRT/webasmRT/JitWriter.cpp:419-482 | the condition code chosen for each comparison holds after `cmp` exactly when the WebAssembly relation does, signed and unsigned |
| OpSim.ExecSelect | webasmRT/webasmRT/JitWriter.cpp:1060-1071 | select leaves the first or the second operand according to the condition and pops three |
| OpSim.RemainderByAbs | webasmRT/webasmRT/JitWriter.cpp:1361-1384 | dividing by the absolute value of the divisor gives the signed remainder for every dividend and nonzero divisor, and the division never overflows |
| OpSim.ExecDiv | webasmRT/webasmRT/JitWriter.cpp:1361-1443 | division and remainder give the WebAssembly result, and fault exactly when WebAssembly traps |
| Sim.EnterArm | webasmRT/webasmRT/JitWriter.cpp:358-364 | running the code that opens a block puts every operand of the outer frame in memory, saves its end, and starts an empty frame above it |
| ControlSim.ExecLeave | webasmRT/webasmRT/JitWriter.cpp:1591-1596 | leaving for depth d pops exactly d + 1 saved pointers and lands on the last of them |
| ControlSim.SimBranch | webasmRT/webasmRT/JitWriter.cpp:1582-1603 | br reaches its label's address with the label's operands on the frame around the block |
| ControlSim.SimBrIf | webasmRT/webasmRT/JitWriter.cpp:1605-1629 | br_if does so when the condition is not zero and otherwise goes on just past the branch with the condition popped |
| TableSim.TableInPlane | webasmRT/webasmRT/JitWriter.cpp:1144-1173 | decoding the emitted table gives for the default and every index the original depth and the address a br to that depth uses |
| TableSim.BranchTableDoes | webasmRT/webasmRT/optemplates.asm:86-132 | the helper selects the entry for the index, or the default when it is out of range, leaves that many blocks and jumps there |
| TableSim.SimBrTable | webasmRT/webasmRT/JitWriter.cpp:1115-1174 | a branch table ends as the branch to the selected depth does |
| CallSim.ExecSetArgs | webasmRT/webasmRT/JitWriter.cpp:856-861 | the top n operands become locals 0 to n-1 in order; every other local and the operands below are unchanged |
| CallSim.RunPrologue | webasmRT/webasmRT/JitWriter.cpp:914-951 | the prologue sets the declared locals to zero, keeps the arguments, and opens an empty frame |
| CallSim.FnEnds | webasmRT/webasmRT/JitWriter.cpp:1073-1087 | falling off the body and branching to the function's label both reach the final ret and return the result |
| Stacking.PlainKeeps | webasmRT/webasmRT/JitWriter.cpp:234-356 | from any state, the code of a plain operation faults or ends with the machine stack as it was; it never gets stuck |
| Boundaries.PlaneStarts | webasmRT/webasmRT/JitWriter.cpp:1497-1497 | in a function's code the instruction that marks an opcode is at the starts of its opcodes and nowhere else |
| BodySteps.BodyMoves | webasmRT/webasmRT/JitWriter.cpp:1504-2632 | from any point of any well-formed body, with the right number of saved words, control goes to a point of the function, a callee, the return address or a fault, with the right number of saved words there |
| Depth.StackDepth | webasmRT/webasmRT/JitWriter.cpp:1522-1651 | after any number of steps from a function's entry with any registers, memory and machine stack: a fault, the return to the caller or the call of an import has happened, or the machine is running; and at the start of an opcode under k labels of a function exactly k words are above that function's return address, below them its caller's saved words, and so on down |
| EndToEnd.CompiledDepth | webasmRT/webasmRT/JitWriter.cpp:2580-2606 | the same of the code compilation leaves in the plane for well-formed functions, whatever else was compiled |
| Transfers.TransferExact | webasmRT/webasmRT/JitWriter.cpp:1582-1651 | at a return under k labels the code goes to the address right under the k saved words; at a br the code drops d + 1 of them and arrives at a point under the k - 1 - d labels that are left |
| Meaning.SimBody | webasmRT/webasmRT/JitWriter.cpp:1490-2632 | the code of any supported body ends the way the interpreter does, at its end, at a label, at the return address or in a fault, with the same operands and locals and everything below the frame unchanged |
| Meaning.SimLoop | webasmRT/webasmRT/JitWriter.cpp:1535-1546 | every iteration of a loop starts again from the loop's head in the same frame |
| Meaning.SimThenArm | webasmRT/webasmRT/JitWriter.cpp:1562-1580 | a then-arm leaves for the end of the if with its results, given that the if has a result or the arm never falls through |
| Meaning.SimCall | webasmRT/webasmRT/JitWriter.cpp:838-911 | a call passes its arguments, keeps the caller's locals and remaining operands, and pushes exactly the declared result, for any call depth |
| Meaning.SimFn | webasmRT/webasmRT/JitWriter.cpp:1445-2645 | a linked function entered with its arguments in the locals returns or faults as the interpreter says |
| Fixups.PatchGen | webasmRT/webasmRT/JitWriter.cpp:2593-2601 | patching all fields of a body that refer to a label gives the code in which that label was known, and nothing else changes |
| Fixups.FieldsWithin | webasmRT/webasmRT/JitWriter.cpp:1598-1602 | every field a body registers is inside the body's own code |
| Once.FieldsOnce | webasmRT/webasmRT/JitWriter.cpp:1598-1602 | the fields a body registers for a label are in the order of the code, so none is in the list twice |
| Once.FieldsApart | webasmRT/webasmRT/JitWriter.cpp:2593-2601 | no field is in the lists of two labels, or in those of both kinds, so each is patched once |
| Emitter.EmitBody | webasmRT/webasmRT/JitWriter.cpp:1493-2632 | translating a well-formed body in one pass never fails and leaves the layout, with the fields of the enclosing blocks collected |
| Emitter.EmitFunction | webasmRT/webasmRT/JitWriter.cpp:1490-2632 | a whole function compiles to exactly its layout; no block is open and no fixup left, and its calls are recorded in order |
| Leb.ReadUnsigned | webasmRT/webasmRT/safe_access.cpp:23-57 | the unsigned readers return the value of the bytes up to the first without continuation bit, at most five or ten, modulo the width |
| Leb.ReadSigned | webasmRT/webasmRT/safe_access.cpp:59-105 | the signed readers additionally fill in the sign when they stopped short of the width |
| LebProofs.UnsignedRoundTrip | webasmRT/webasmRT/safe_access.cpp:23-57 | every encoding section 5.2.2 allows, padded ones included, is read as the value it denotes and consumed exactly |
| LebProofs.EncodeUEncodes | webasmRT/webasmRT/safe_access.cpp:23-57 | the shortest encoding of every number in range is one of them |
| LebProofs.EncodeSEncodes | webasmRT/webasmRT/safe_access.cpp:59-105 | so is the shortest encoding of every signed number in range |
| LebProofs.SignedRoundTrip | webasmRT/webasmRT/safe_access.cpp:59-105 | the same for signed encodings, if and only if the width is 32 or the sign fits the wrapped shift |
| LebProofs.Signed64Misread | webasmRT/webasmRT/safe_access.cpp:83-105 | the shortest encoding of -4294967296 is read as -8 |
| Bytecode.FetchOp | webasmRT/webasmRT/JitWriter.cpp:1493-1504 | takes one opcode with its immediates off the bytecode, moving the cursor by exactly their length |
| Bytecode.FetchTable | webasmRT/webasmRT/JitWriter.cpp:1117-1124 | reads a branch table's targets and default |
| Bytecode.OpRoundTrip | webasmRT/webasmRT/wasm_types.h:120-312 | every binary encoding of a modelled instruction is fetched as that instruction and consumed exactly |
| Bytecode.DecodeRoundTrip | webasmRT/webasmRT/JitWriter.cpp:1493-1504 | fetching until the bytes run out gives back the list of instructions they encode |
| Emission.EmitBytesDecodes | webasmRT/webasmRT/JitWriter.cpp:1493-2632 | fetching and emitting in turns is emitting what decoding all the bytes gives, and fails when decoding does |
| Emission.OpContinues | webasmRT/webasmRT/JitWriter.cpp:1504-2632 | no opcode, on any bytecode, changes code before its own function, and pending fields and loop heads stay inside it |
| Shapes.ShapedNested | webasmRT/webasmRT/JitWriter.cpp:1522-1580 | the operand types at every address after a structured instruction are those validation has after it |
| Spots.Locate | webasmRT/webasmRT/JitWriter.cpp:1493-1504 | every address that validation gives operand types is a point of one instruction, whose code, labels and operand types are known |
| Frames.LeftFrame | webasmRT/webasmRT/JitWriter.cpp:1591-1596 | leaving d + 1 blocks with the flag of the label's arity gives the frame around them with the label's operand on top, all of their types |
| TypedSteps.PlainTyped | webasmRT/webasmRT/JitWriter.cpp:234-356 | from operands and locals of the types before a plain operation its code faults or leads to the next opcode with those of the types after it |
| TypedFns.FnMovesTyped | webasmRT/webasmRT/JitWriter.cpp:1490-2632 | from any point of a validated, supported function with the types expected there, control goes to a point with the types expected there, into a callee with arguments of its types, to the return address with a result of its type, or to a fault |
| TypedRuns.TypedAdvances | webasmRT/webasmRT/JitWriter.cpp:838-911 | the same across calls and returns, with the frames of the waiting functions |
| TypedRuns.TypeSafety | webasmRT/webasmRT/JitWriter.cpp:2508-2512 | after any number of steps from the entry with arguments of the parameter types: a fault, the return with a result of its type, or the machine is running; and at the start of an opcode every i32 is zero-extended and every operand and local has the type validation gives it, on all frames of all functions that have not returned |
| EndToEnd.CompiledTypes | webasmRT/webasmRT/JitWriter.cpp:2580-2606 | the same of the code compilation leaves in the plane for valid, supported functions, whatever else was compiled |
| Closure.Compile | webasmRT/webasmRT/JitWriter.cpp:2635-2642 | compiling makes the set of null table entries strictly smaller, so the recursion ends |
| Closure.CompileExtends | webasmRT/webasmRT/JitWriter.cpp:1456-1456 | code is only appended; the only older cells that change are null table entries, each at most once |
| Closure.CompileCloses | webasmRT/webasmRT/JitWriter.cpp:2635-2642 | after a compilation every newly compiled function has only callees that are compiled or imported |
| Closure.CompileReaches | webasmRT/webasmRT/JitWriter.cpp:1448-1448 | everything newly compiled is reachable by direct calls from the function asked for, and none of it is an import |
| JitWriter.JitWriter.constructor | webasmRT/webasmRT/JitWriter.cpp:20-56 | table, helper pointers, globals and code are laid out in disjoint areas, globals and code on 4096-byte boundaries, imports linked and every other entry null |
| Closure.PageUp | webasmRT/webasmRT/JitWriter.cpp:34-37 | rounds up to the next page boundary by less than a page |
| JitWriter.JitWriter.SafePushCode | webasmRT/webasmRT/JitWriter.cpp:64-70 | appends the bytes, or changes nothing and fails when they do not fit |
| JitWriter.JitWriter.EnterBlock | webasmRT/webasmRT/JitWriter.cpp:358-364 | appends the code that opens a block |
| JitWriter.JitWriter.EnterIf | webasmRT/webasmRT/JitWriter.cpp:366-386 | appends the test with an open jump and returns the jump's field |
| JitWriter.JitWriter.LeaveBlock | webasmRT/webasmRT/JitWriter.cpp:388-395 | appends the code that leaves a block with or without a result |
| JitWriter.JitWriter.LeaveBlocks | webasmRT/webasmRT/JitWriter.cpp:1591-1596 | the loop appends the code that leaves all blocks up to the target |
| JitWriter.JitWriter.JumpNIf | webasmRT/webasmRT/JitWriter.cpp:798-818 | appends a conditional jump with a placeholder and returns its field |
| JitWriter.JitWriter.Jump | webasmRT/webasmRT/JitWriter.cpp:820-836 | appends a jump to a known target or a placeholder; the displacement always fits 32 bits |
| JitWriter.JitWriter.PatchFields | webasmRT/webasmRT/JitWriter.cpp:2593-2601 | the loop points every field in the list at the cursor and changes nothing else |
| JitWriter.JitWriter.CallIfn | webasmRT/webasmRT/JitWriter.cpp:838-911 | appends the call sequence, its displacement leading to the callee's table entry |
| JitWriter.JitWriter.FnPrologue | webasmRT/webasmRT/JitWriter.cpp:914-951 | appends the prologue, without the zeroing when there is nothing to zero |
| JitWriter.JitWriter.PushEntries | webasmRT/webasmRT/JitWriter.cpp:1164-1173 | the loop appends one entry per target and records the unknown addresses as fixups |
| JitWriter.JitWriter.BranchTable | webasmRT/webasmRT/JitWriter.cpp:1126-1173 | appends the helper jump and the table |
| JitWriter.JitWriter.CompileElse | webasmRT/webasmRT/JitWriter.cpp:1562-1580 | patches the first pending field, the condition's, and keeps the others |
| JitWriter.JitWriter.CompileEnd | webasmRT/webasmRT/JitWriter.cpp:2580-2606 | appends the leave code, patches both kinds of fields, closes the block |
| JitWriter.JitWriter.BranchIf | webasmRT/webasmRT/JitWriter.cpp:1605-1629 | appends test, leave code and jump, and patches the test to just past them |
| JitWriter.JitWriter.CompileAtom | webasmRT/webasmRT/JitWriter.cpp:1582-1663 | translates an unstructured instruction as the emitter on values does, or fails for the same reasons or lack of room |
| JitWriter.JitWriter.CompileBody | webasmRT/webasmRT/JitWriter.cpp:1490-2632 | the loop over the bytecode writes what the emitter on values gives |
| JitWriter.JitWriter.CountLocals | webasmRT/webasmRT/JitWriter.cpp:1458-1464 | counts parameters and declared locals modulo 2^32 |
| JitWriter.JitWriter.CompileFn | webasmRT/webasmRT/JitWriter.cpp:1445-2645 | leaves in the plane exactly the code compilation on values gives, callees included, and fails exactly when that fails or does not fit; failed or not, what was compiled before is unchanged and the function's entry points at where its code was begun |
| EndToEnd.EmitFnMatches | webasmRT/webasmRT/JitWriter.cpp:1445-2633 | the bytes of an encoded function compile to the layout of that function at the cursor, its table entry pointing there |
| EndToEnd.CompileSucceeds | webasmRT/webasmRT/JitWriter.cpp:1445-2645 | every check in CompileFn passes on a well-formed function whose callees are well-formed, whatever else is in the module |
| EndToEnd.CompileKeepsTable | webasmRT/webasmRT/JitWriter.cpp:2635-2642 | every entry of a described function that is not null points at that function's code, with all callees compiled and no code shared; each compilation, of a described function or any other, keeps that |
| Endless.LongFn | webasmRT/webasmRT/JitWriter.cpp:1445-2645 | a compiled function for which fuel k is not enough makes at least k machine steps |
| Endless.FnDiverges | webasmRT/webasmRT/JitWriter.cpp:1445-2645 | if no fuel is enough the machine runs for ever |
| Endless.StopsAlike | webasmRT/webasmRT/JitWriter.cpp:1445-2645 | when the machine has stopped after n steps, fuel n is enough, and it stopped by a fault for a trap or at the return address for a return |
| EndToEnd.CompiledRuns | webasmRT/webasmRT/JitWriter.cpp:2665-2715 | calling a compiled function does what the interpreter does, whatever else was compiled before |
| Selection.PartInvoke | webasmRT/webasmRT/JitWriter.cpp:2635-2642 | a run that needs none of the functions a description leaves out is the run of the whole module |
| Runtime.Load | webasmRT/webasmRT/WasmContext.cpp:436-438 | a new plane for a module satisfies the invariant that calls rely on, its code area empty and no function compiled |
| Runtime.Open | webasmRT/webasmRT/WasmContext.cpp:415-443 | the same from the bytes of the module's sections |
| Runtime.PlaceArguments | webasmRT/webasmRT/JitWriter.cpp:2688-2691 | arguments land in locals 0 to n-1 |
| Runtime.ExternCallFn | webasmRT/webasmRT/JitWriter.cpp:2665-2730 | a call from outside compiles on demand and gives the state at the function's address with its arguments in the locals; from there the run behaves as the interpreter says and keeps the stack discipline and the types, and the next call can rely on the same; described functions fail only for lack of room, and after a failure what was compiled before still works while the failed function counts as compiled |
| Runtime.ValidatedRuns | webasmRT/webasmRT/JitWriter.cpp:2665-2730 | for a well-typed function the machine faults exactly on a trap, or returns a result of the declared type to the caller's address, or runs on |
| Encoding.EncodedDecodes | webasmRT/webasmRT/JitWriter.cpp:1493-1504 | decoding after encoding is the identity on every list of opcodes whose constants are readable |
| Encoding.ModuleMatches | webasmRT/webasmRT/JitWriter.cpp:1445-1504 | every list of well-formed functions with readable constants is described by the module its encoding makes |
| Payloads.ModuleLoads | webasmRT/webasmRT/WasmContext.cpp:9-171 | loading the encoded type, function and code sections of such a list gives the compiler that module |
| Factorial.RecComputes | test/spec_tests/fac.wast:2-10 | fac-rec returns n! modulo 2^64 for every n |
| Factorial.IterComputes | test/spec_tests/fac.wast:25-43 | fac-iter, with its branch out of a void if, returns n! modulo 2^64 for every n |
| Factorial.CallFactorial | test/spec_tests/fac.wast:84-85 | either program, loaded from the bytes of its sections, compiled into a plane of at least 128*4096 bytes and entered at its address with n, always compiles and returns that number in rax |
| Divergence.LeaveExact | webasmRT/webasmRT/JitWriter.cpp:388-395 | leaving a block restores the outer frame exactly when the flag agrees with whether there is a result |
| Divergence.BranchExact | webasmRT/webasmRT/JitWriter.cpp:1591-1598 | the state a branch arrives in, and that its frame is right exactly when its block's result type agrees with the label's arity |
| Divergence.TypedLoopBranch | webasmRT/webasmRT/JitWriter.cpp:1535-1546 | a branch back to a loop with a result type arrives at its head one slot too high |
| Divergence.ElseExact | webasmRT/webasmRT/JitWriter.cpp:1562-1580 | the state the jump at else arrives in, and that its frame is right exactly when the if has a result |
| Divergence.TableExact | webasmRT/webasmRT/JitWriter.cpp:1126-1148 | the state a branch table arrives in, and that its frame is right exactly when the default's flag agrees with the selected label's arity |
| Divergence.VoidElseAddsWrong | webasmRT/webasmRT/JitWriter.cpp:1568-1568 | an empty void if with else-arm followed by i32.add adds the top operand to itself |
| Divergence.InterpreterAdds | webasmRT/webasmRT/JitWriter.cpp:1568-1568 | where the interpreter adds the two operands |
| WrongResults.LoopReturnsWrong | webasmRT/webasmRT/JitWriter.cpp:1605-1629 | a whole function that branches back once to a loop with a result type returns its third argument |
| WrongResults.LoopShouldReturn | webasmRT/webasmRT/JitWriter.cpp:1605-1629 | where the interpreter returns the second |
| WrongResults.LoopFnTyped | webasmRT/webasmRT/JitWriter.cpp:1535-1546 | and the function is valid |
| WrongResults.TableReturnsWrong | webasmRT/webasmRT/JitWriter.cpp:1115-1174 | a whole function with a branch table whose default is a loop with a result type and whose selected target is a void block returns its second argument |
| WrongResults.TableShouldReturn | webasmRT/webasmRT/JitWriter.cpp:1115-1174 | where the interpreter returns the first |
| WrongResults.TableFnTyped | webasmRT/webasmRT/JitWriter.cpp:1126-1148 | and the function is valid |
| WrongResults.ElseReturnsWrong | webasmRT/webasmRT/JitWriter.cpp:1562-1580 | a whole function with an empty void if with else-arm and an addition returns y + y |
| WrongResults.ElseShouldReturn | webasmRT/webasmRT/JitWriter.cpp:1562-1580 | where the interpreter returns x + y |
| WrongResults.ElseFnTyped | webasmRT/webasmRT/JitWriter.cpp:1562-1580 | and the function is valid |
| TypeLoss.ElseTypes | webasmRT/webasmRT/JitWriter.cpp:1562-1580 | the frame a jump at else arrives with has the types expected there exactly when the if has a result |
| TypeLoss.BranchTypes | webasmRT/webasmRT/JitWriter.cpp:1591-1598 | the frame a branch arrives with has the types expected there exactly when its block's result type agrees with the label's arity |
| TypeLoss.WidenSees | webasmRT/webasmRT/JitWriter.cpp:2508-2512 | a whole function with an empty void if with else-arm reaches i64.extend_u/i32 with its i64 argument in rax, which is an i32 exactly when it is below 2^32 |
| TypeLoss.WidenExpects | webasmRT/webasmRT/JitWriter.cpp:2508-2512 | where validation expects one i32 |
| TypeLoss.WidenTyped | webasmRT/webasmRT/JitWriter.cpp:1562-1580 | and the function is valid |
| Sections.TypeRoundTrip | webasmRT/webasmRT/WasmContext.cpp:9-28 | an encoded function type is read back and consumed exactly if and only if its result count is one byte long |
| Sections.PaddedResultCount | webasmRT/webasmRT/WasmContext.cpp:23-25 | a type with a padded result count of one is read as having none |
| Sections.TypesRoundTrip | webasmRT/webasmRT/WasmContext.cpp:30-41 | loading an encoded type section gives back the list with no byte left over |
| Sections.DeclsRoundTrip | webasmRT/webasmRT/WasmContext.cpp:43-55 | loading an encoded function section gives back the list exactly when every index names a type |
| Sections.CodeRoundTrip | webasmRT/webasmRT/WasmContext.cpp:147-171 | loading an encoded code section gives back every body, its local groups and its own bytecode |
| WasmContext.SameType | webasmRT/webasmRT/wasm_types.h:376-393 | the comparison loop decides structural equality |
| WasmContext.WasmContext.LoadFnType | webasmRT/webasmRT/WasmContext.cpp:9-28 | appends the type that parsing gives, or fails without appending when parsing does |
| WasmContext.WasmContext.LoadFnTypes | webasmRT/webasmRT/WasmContext.cpp:30-41 | appends all the types of the section, and succeeds exactly when it parses with no byte left over |
| WasmContext.WasmContext.LoadFnDecls | webasmRT/webasmRT/WasmContext.cpp:43-55 | appends all the indices, and succeeds exactly when they are in range and no byte is left over |
| WasmContext.WasmContext.LoadLocals | webasmRT/webasmRT/WasmContext.cpp:159-162 | reads the local groups of a body |
| WasmContext.WasmContext.LoadInside | webasmRT/webasmRT/WasmContext.cpp:157-165 | the rest of the entry after the local groups is the bytecode, which has to end with end |
| WasmContext.WasmContext.LoadBody | webasmRT/webasmRT/WasmContext.cpp:152-166 | appends one body and moves the cursor by exactly its size |
| WasmContext.WasmContext.LoadCodeSection | webasmRT/webasmRT/WasmContext.cpp:147-171 | appends all the bodies, and succeeds exactly when the section parses with no byte left over |
| WasmContext.WasmContext.LoadImports | webasmRT/webasmRT/WasmContext.cpp:201-211 | every function import adds its type index, which has to be in range |
| WasmContext.WasmContext.LoadModule | webasmRT/webasmRT/WasmContext.cpp:415-443 | what the compiler gets, after canonicalising, is the signatures and bodies the sections hold; every function's entry is the least index of its type, so two entries are equal exactly when the functions' types are; loading succeeds exactly when the sections can be read |
| WasmContext.LoadsEncoded | webasmRT/webasmRT/WasmContext.cpp:340-379 | every encoding of types, type indices and bodies, with indices in range, loads to them |
| WasmContext.WasmContext.ITypeCanonicalFromIType | webasmRT/webasmRT/WasmContext.cpp:451-467 | the walk down ends at the least index of an equal type |
| WasmContext.WasmContext.CanonicalizeEntries | webasmRT/webasmRT/WasmContext.cpp:440-443 | every function's type index becomes the canonical one |
| Canonical.Canon | webasmRT/webasmRT/WasmContext.cpp:451-467 | the canonical index names an equal type, and no smaller index does |
| Canonical.EntriesCompare | webasmRT/webasmRT/WasmContext.cpp:440-443 | after canonicalising, two functions' entries are equal exactly when their signatures are; doing it twice changes nothing |
| Canonical.SigsKept | webasmRT/webasmRT/WasmContext.cpp:440-443 | no function's signature changes |
| Canonical.IndirectCheck | webasmRT/webasmRT/optemplates.asm:157-185 | the shim's comparison of numbers accepts exactly the callees whose type is structurally the expected one, and traps otherwise |
| Heap.Memory.Enter | webasmRT/webasmRT/JitWriter.cpp:2699-2706 | the size at the start of a call is the declared page count times 65536 below 65536 pages, and 0 for 65536; in general it agrees with that product modulo 2^32 |
| Heap.EnteredSize | webasmRT/webasmRT/JitWriter.cpp:2701-2701 | that is the declared size exactly below 65536 pages |
| Heap.Memory.GrowMemory | webasmRT/webasmRT/JitWriter.cpp:2739-2753 | returns what growing gives and moves the memory to the state after that event |
| Heap.GrowMeets | webasmRT/webasmRT/JitWriter.cpp:2739-2753 | growing succeeds with the old page count exactly when the new size is allowed, answers -1 exactly above the maximum, and keeps the size valid |
| Heap.Memory.Leave | webasmRT/webasmRT/JitWriter.cpp:2721-2722 | the page count written back, times 65536, is the current size; an empty memory keeps its declared count |
| Heap.Memory.Reenter | webasmRT/webasmRT/JitWriter.cpp:2699-2722 | ending one call and starting the next is the re-entry event, and keeps a valid size |
| Heap.SizeKept | webasmRT/webasmRT/JitWriter.cpp:2739-2753 | over any sequence of grows and re-entries the size is a whole number of pages within the maximum, never shrinks, and survives re-entry |

## Left out

- Operand and locals memory: two unbounded regions of 8-byte slots, apart from each other; `rdi` and `rbx` count slots. Exhausting the 4096 * 100 slots of either is not modelled.
- Instruction encodings: an instruction is a named micro-operation with its length, and only patchable fields, pointers and table words are data. The zeroing of locals, six instructions in the original, is one micro-operation.
- Straight-line instruction arrays of the plain operations are appended in one piece; the original pushes some of them in several.
- The three parallel stacks of block types, relative fixups and absolute fixups are one stack of records, innermost first.
- Exceptions are a result `ok == false`.
- Undefined behaviour of the original is modelled as failure: branch table targets that are not open blocks, `else` and `end` without an open block, a function without a code entry, an empty bytecode vector.
- Local counts: the frames of all functions have to be smaller than 2^28 slots, as byte offsets are computed in 32 bits (`Emission.LocalsFit`).
- JitWriter.JitWriter.constructor: planes too small for the function table, helper pointers and globals, which the original writes past; `Runtime.Load` and `Runtime.Open` ask for the same.
- Meaning.SimCall: calls to imports; the interpreter gets stuck on them, as the builtins in rt_callbacks.cpp are outside the model; the emitted call sequence is modelled.
- call_indirect in bytecode: only the shim's decision is modelled, not its lazy compilation while code runs, because the plane is constant during a run.
- Loads and stores: addresses wrap at 32 bits without a bounds check, and StoreMem pops its address but not its value (JitWriter.cpp:195-232), so a store leaves one operand too many.
- Globals, floating point (f64.lt also runs the code of f64.gt, JitWriter.cpp:1913-1918), conversions, memory size and growth as opcodes.
- Tables, memories, exports, elements, data and start sections, and of imports everything but the type index; the loaders of these would add members of the kind shown for the modelled sections.
- The debug register write before each opcode has its length and no other effect.
- VirtualAlloc, page protection, file reading, disassembly printing and the test host.
- Heap: a module without a memory; the original then writes to an element that does not exist.
- Bytecode.FetchOp: opcodes outside the modelled set are failures, as unknown opcodes are; a function that has one does not compile, and neither does one that calls it.
