# Verified model of vexllvm

vexllvm is a dynamic binary translator: guest code is decoded into VEX superblocks, each superblock is
lowered to an LLVM function, the function is compiled and cached, and a dispatch loop runs one after the
other. This project models the parts of it that carry hard properties and proves them. `dafny verify
dfyconfig.toml` checks everything.

## What is modelled

**Lowering** (`src/vexsb.cc`, `src/vexstmt.cc`, `src/vexexpr.cc`, `src/genllvm.cc`). `VexIR` is the
superblock language with its meaning: expressions are pure and total, if-then-else is strict, statements
run in order, and a taken guarded exit ends the run, leaving the number of its kind of jump; the emitter's own
tables of exit kinds are proved to write that number. `LlvmIR` is the target: basic blocks over
single-assignment registers with a small-step meaning in which reading an unwritten register, or leaving
a block that has no terminator, is stuck. `Builder` and `Lowering` are the emitter as functions on the
function under construction (blocks, insertion point, and the two memo tables for context addresses);
`Emitter` is the emitter as it is written, classes `GenLLVM` and `VexSB` whose methods move the insertion
point and fill the array of temporaries, proved to build exactly those functions. On top of that:

- the emitted function returns the next address, context and memory of the superblock, and nothing else
  (`Simulation`, `SimExpr`, `SimStmt`, `SimDirty`, `LowerCorrect`);
- it is closed, in single-assignment form, and definitions dominate uses on every way through it
  (`Extension`, `StmtShape`, `Ssa`, `SsaExpr`, `SsaStmt`, `SsaSb`);
- indexed context access, the exit byte, and double-width compare-and-swap, which does not mean what VEX
  means, with the exact condition under which it does (`ContextLaws`, `VexCoded`, `BlockLaws`);
- superblocks that use results of guarded helper calls: `VexDefined` says what evaluation reads, `Jams`,
  `JamExpr`, `JamStmt` and `JamGuards` where reading a register never written gets a run stuck, and
  `GuardedCalls` on exactly which guests such a superblock is right;
- the types of what the function returns (`ReturnTypes`);
- what the types come to in bytes and numbers, for registers, memory, constants, guarded loads and helper
  results (`TypeLaws`).

What a superblock must satisfy is `VexWf.WfSB`: the assertions of the emitter, and the alignment and typing
that its code takes for granted. It can be read off the superblock. One clause of it is a finding: the
result of a guarded helper call counts as unusable afterwards, because it is defined only on the path where
the guard held; `GuardedCalls.WfLoose` drops that clause. Indexed accesses must satisfy `VexWf.IndexExact`, which `ContextLaws.IndexArithExact` shows
to be exactly what the 32-bit arithmetic needs.

**Operators** (`src/vexop.cc`, `src/vexop_macros.h`, `support/vexops.c`). The lowering results hold for any
meaning of the operators (`VexIR.Machine`). `VexOps` and `VexLanes` prove for every lane width that the
instruction sequences of saturation, high multiplication, averaging, halving, narrowing, shifts and packed
division compute the exact integer results, and `VexLanes` has the lane loops themselves. `VexMachine` is a
machine with these operators, and what a vector instruction leaves in the guest registers when its emitted
function runs.

**Caches** (`src/directcache.h`, `src/vexfcache.cc`, `src/vexjitcache.cc`). `DirectMapped` is the
direct-mapped cache and why it cannot be seen; `CodeMaps` is what every operation does to the three maps,
`AheadMaps` exactly what compiling ahead adds to them, `AheadVictims` exactly when it cannot harm them, and
`CacheRuns` what holds over whole runs; `CodeCaches` is the cache class with its maps and direct caches, proved
to do just that.

**Dispatch and self-modifying code** (`src/vexexec.cc`). `ExecModel` has write protection, the fault
handler, the pending flush and the dispatch step. `Freshness` is the invariant, `Tampering` the stores
between two dispatches, `AheadFreshness` lookups that compile exits ahead, and `FreshRuns` whole runs: when the
superblock dispatched is the translation of memory as it is. `StepLaws` says how a trip round the loop ends, by
the numbers of the exit kinds, and what lookups and stores do to the mappings. `VexExecs` is the class with its fields and
loop body. `Translation` puts lowering and dispatch together: the translated guest is the interpreted one.

**Thunks** (`src/qemu/translatedthunk.c`, `src/qemu/translatedthunk.h`). `ThunkTypes` has descriptors, sizes
and alignments, `ThunkLayout` the double layout of structs, `ThunkConversion` the scalars of an object,
`ThunkLaws` framing, round trips and alignment, `ThunkNumbers` longs in the bytes of each side's ABI, `ThunkParts` what
becomes of elements and fields, `Thunks` the class that registers and converts in place over
byte arrays, `BitMasks` the table-driven flag translators.

**Smaller state machines.** `FragCaches` (`src/fragcache.cc`), `ExecChk` (`src/vexexecchk.cc`) and `Signals`
(`src/qemu/translatedsignal.c`).

## Where the code falls short of what it is for

Each of these is proved for all inputs as an exact condition, where a condition is named, and shown by a
concrete input where one is named:

- Double-width compare-and-swap compares its two comparisons with each other and stores the low value twice:
  `BlockLaws.CasExact` and `CasBlockExact` say when that is right, `CasStoresOnMismatch` is a case where it is not.
- The result of a guarded helper call is undefined where the guard failed. A superblock that uses it is right
  exactly on the guests on which nothing it executes reads such a result (`GuardedCalls.GuardedCallsExact`); the
  smallest such block fails wherever the guard does (`GuardedCalls.GuardedDirtyExact`).
- The function returns 64 bits, but the jump target of a 32-bit guest is returned as it is
  (`ReturnTypes.ReturnsExact`).
- Guarded exits of kind MapFail and SigSEGV, and block ends of kind Yield, leave numbers for which the dispatcher
  has no case, and it gives up on exactly these (`Translation.DispatchByJump`).
- Index plus bias wraps at 2^32 before the remainder is taken (`ContextLaws.IndexArithExact`), and a
  misaligned byte offset is rounded down (`ContextLaws.ByteAddress`).
- Of several mappings that fault between two dispatches only the one opened last is flushed:
  `Tampering.OneFaultExact` and `WritesExact` say when that loses something, `FreshRuns.SecondFaultWins` is a case.
  A mapping within 1024 bytes of either end of the address space is not emptied by its flush, and only such a
  mapping is not (`FreshRuns.FlushExact`); a request for address zero even reads as none
  (`FreshRuns.OffsetZeroNeverFlushed`). A store to protected code that was never asked to be writable faults for
  ever (`FreshRuns.HungExact`).
- Compiling exits ahead translates from mappings that are not protected: `AheadFreshness.LookupExact` says from
  the state before the lookup when that leaves something uncovered, `AheadStaleness.AheadStale` is a case. With a
  full cache it can also leave compiled code behind that flushes miss (`CodeMaps.AheadLeaks`, `FlushRangeExact`):
  exactly when not everything it looks up fits (`AheadVictims.AgreesExact`).
- `thunk_convert` steps into a pointer type where `thunk_type_next` steps over it (`Thunks.NextAgrees`).
- A flag word comes back from the host with a field changed when its table does not list the value
  (`BitMasks.FieldThereAndBack`).
- The cross-checker reports a mismatch when a superblock is left into its own middle and left again too early:
  `ExecChk.CatchUpExact` and `RunExact` say when, `ForeignReentryMismatches` is a case. The comment of the
  cross-checker says that jumping out of the bounds makes it safe to step through all of them; the model follows
  the code.

## Model

| member | source | states |
|---|---|---|
| LowerCorrect.LoweringCorrect | src/vexsb.cc:151-202 | For every well-formed superblock without double-width compare-and-swap and every guest, the emitted function returns, with the next address, context and memory that running the VEX statements in order gives, early exits included. |
| LowerCorrect.LoweringExact | src/vexsb.cc:151-202 | ... and it returns nothing else: a result is returned if and only if it is the result of the superblock. |
| LowerCorrect.EmittedCodeRuns | src/vexsb.cc:151-202 | For every well-formed superblock, double-width compare-and-swap included, the emitted function returns what the statements do as coded. |
| LowerCorrect.SimulateStmt | src/vexstmt.cc:31-661 | One statement: from any state at the insertion point the code emitted for it reaches the new insertion point with the new guest and temporaries, or leaves the function with the exit the statement takes. |
| LowerCorrect.SimulateStmts | src/vexsb.cc:160-161 | A run of statements: a taken guarded exit ends the run, otherwise the insertion point is reached with the state after all of them. |
| LowerCorrect.SimulateEnd | src/vexsb.cc:163-199 | The end of the block evaluates the jump target, then leaves the number that its kind of jump means in the exit byte, unless that is an ordinary one, then returns the value of the target. |
| LowerCorrect.BlockKind | src/vexsb.cc:166-196 | The emitter accepts every kind of jump at the end of a block but MapFail, SigSEGV, EmWarn and NoDecode, and what it writes is the number the jump means. |
| SimDirty.StmtKind | src/vexstmt.cc:434-452 | It accepts every guarded exit but NoRedir, ClientReq, Yield and SigTRAP, writes the number the jump means, and nothing exactly for Boring. |
| ReturnTypes.ReturnsExact | src/genllvm.cc:113-120 | Every return of the emitted function is of the 64-bit return type if and only if the jump target at the end is 64 bits wide; guarded exits always are. So it never is for 32-bit targets. |
| ReturnTypes.RetsStmt | src/vexstmt.cc:31-661 | No statement emits a return of another type. |
| LowerCorrect.SimulateExit | src/vexstmt.cc:473-508 | A guarded exit: taken, it leaves its kind (if not boring) and returns the 64-bit target; not taken, nothing changes. |
| VexCoded.SingleWidthAgrees | src/vexstmt.cc:249-263 | Apart from double-width compare-and-swap, the coded meaning of every run of statements is the VEX meaning. |
| SimExpr.SimulateExpr | src/vexexpr.cc:728-974 | For arbitrarily nested expressions the operand returned evaluates, at the insertion point where emission ended, to the value of the expression; guest state and earlier operands are kept. |
| SimExpr.SimulateExprs | src/vexexpr.cc:774-804 | The same for argument lists, left to right, each operand still valid after the later ones are emitted. |
| SimExpr.SimulateMux | src/vexexpr.cc:906-960 | If-then-else: only one arm runs, and the join holds the value that the strict definition picks. |
| SimExpr.SimulateNonZero | src/vexexpr.cc:919-960 | A non-zero condition goes through the second arm, however many blocks that arm opened, and the phi picks its value by the block where the arm ended. |
| SimExpr.SimulateZero | src/vexexpr.cc:919-960 | A zero condition goes through the first arm, and the phi picks its value by the block where that arm ended. |
| SimExpr.SimPhi | src/vexexpr.cc:950-958 | A phi entered from one of its two blocks yields the value listed for that block. |
| SimStmt.SimStoreG | src/vexstmt.cc:534-564 | A guarded store writes when the guard holds and does nothing otherwise, and both ways meet at the merge block. |
| SimStmt.SimGuardedLoad | src/vexstmt.cc:594-661 | A guarded load gives the converted loaded value when the guard holds, else the alternative, joined by a phi. |
| SimStmt.SimLoadG | src/vexstmt.cc:617-649 | The load and the conversion of each guarded-load kind, zero or sign extended to 32 bits. |
| SimStmt.SimCasSingle | src/vexstmt.cc:229-306 | Single-width compare-and-swap: the old value always lands in the temporary, the new one in memory exactly on a match. |
| SimStmt.SimCasHigh | src/vexstmt.cc:249-286 | The high half: its address, its old value, and the comparison of the two comparisons. |
| SimStmt.SimCasDouble | src/vexstmt.cc:249-306 | Double-width compare-and-swap as coded: stores the low value to both halves when both comparisons agree. |
| SimDirty.SimDirtyCall | src/vexstmt.cc:347-414 | A helper call: runs when the guard holds, its result widened or cut to the temporary; skipped otherwise. |
| SimDirty.SimCall | src/vexstmt.cc:376-408 | The call proper: arguments in order, effects of the helper on the guest, and the cast of its result. |
| SimDirty.SimExit | src/vexstmt.cc:473-508 | Branching to the leaving block or past it according to the guard. |
| SimDirty.SimLeave | src/vexstmt.cc:495-504 | The leaving block records the kind of a special exit before it returns. |
| Simulation.SimReadCtx | src/genllvm.cc:156-164 | Reading a context slot through a fresh or a remembered address loads the bytes at its offset. |
| Simulation.SimWriteCtx | src/genllvm.cc:196-205 | Writing a context slot through a fresh or a remembered address changes just the bytes at its offset. |
| Simulation.SimByteGEP | src/genllvm.cc:235-270 | A context address, fresh or remembered, is the address of the offset asked for. |
| Simulation.SimTyGEP | src/genllvm.cc:273-309 | An address in units of the access type is base plus index times size, through a fresh or remembered cast. |
| Simulation.SimIndexOffset | src/genllvm.cc:172-187 | The 32-bit index arithmetic computes the element that the array index selects. |
| Simulation.SimReadCtxIx | src/genllvm.cc:166-193 | An indexed read loads the element that index and bias select. |
| Simulation.SimWriteCtxIx | src/genllvm.cc:207-233 | An indexed write stores to the element that index and bias select. |
| Simulation.SimHostAddr | src/genllvm.cc:323-340 | A guest address becomes the host pointer of the same guest byte, for 32-bit guests and relocated guests too. |
| Simulation.SimLoadMem | src/genllvm.cc:342-391 | A load through the host pointer reads guest memory at the address. |
| Simulation.SimStoreMem | src/genllvm.cc:311-340 | A store through the host pointer writes guest memory at the address. |
| Simulation.SimFlatten | src/vexexpr.cc:891-904 | Turning a 64-bit vector into an integer before the join keeps its bits. |
| LlvmIR.DoneUnique | src/vexsb.cc:151-202 | The target machine is deterministic: a function returns at most one result. |
| LlvmIR.ReachGrow | src/vexstmt.cc:473-508 | Runs through finished code are not disturbed by later emission. |
| Jams.StuckNever | src/vexstmt.cc:361-413 | A run that gets stuck before the return never returns anything. |
| StmtShape.EveryBlockClosed | src/vexsb.cc:151-202 | Every block of every emitted function ends in a terminator. |
| SsaSb.BranchesInside | src/vexsb.cc:151-202 | Every branch of an emitted function goes to a block of the function, and never to the entry block. |
| StmtShape.TidyStmt | src/vexstmt.cc:31-661 | Each statement leaves exactly the blocks it opened closed, plus the one where emission goes on, and touches no finished block. |
| Extension.TidyExpr | src/vexexpr.cc:728-974 | The same for every expression, with emission ending in an open block that is not the entry block once that has been left. |
| SsaSb.DefinitionsDominate | src/vexsb.cc:151-202 | On every way from the entry block through the emitted function, every use comes after its definition; a phi uses what was defined where control came from. |
| SsaSb.DefinedOnce | src/vexsb.cc:151-202 | No register of an emitted function has two definitions. |
| SsaSb.EmittedIsSsa | src/vexsb.cc:151-202 | Every emitted function is in single-assignment form with definitions dominating uses. |
| SsaSb.NeverBack | src/genllvm.cc:283-292 | Once emission has left the entry block it never returns to it, so no address remembered there is reused in any other block. |
| SsaSb.GoodStmts | src/vexsb.cc:160-161 | Well-formedness of the function under construction is kept by every run of statements. |
| SsaStmt.GoodStmt | src/vexstmt.cc:31-661 | Every kind of statement keeps the function under construction well formed, with the operands of all usable temporaries available at the insertion point. |
| SsaExpr.FlowExpr | src/vexexpr.cc:728-974 | Every expression keeps the function under construction well formed and yields an operand available at the insertion point. |
| SsaExpr.FlowByteGEP | src/genllvm.cc:235-270 | A remembered address that is reused has been defined before, in the same block. |
| SsaExpr.FlowTyGEP | src/genllvm.cc:273-309 | A remembered cast of the context pointer that is reused has been defined before, in the same block. |
| SsaExpr.FlowMux | src/vexexpr.cc:906-960 | The phi of an if-then-else names the blocks where the two arms ended, and these are exactly the predecessors of the join. |
| SsaStmt.GoodGuardedLoad | src/vexstmt.cc:594-661 | The phi of a guarded load names the two blocks that branch to its merge block. |
| ContextLaws.PutIGetI | src/vexstmt.cc:65-71 | After an indexed write, an indexed read of a congruent index and bias gives back the value written, and of any other index what was there before. |
| ContextLaws.IndexedInside | src/genllvm.cc:179-187 | An indexed access stays inside its array for every index and bias. |
| ContextLaws.IndexArithExact | src/genllvm.cc:172-187 | The 32-bit arithmetic selects (index + bias) modulo the element count for every index if and only if the bias is zero or the element count divides 2^32. |
| ContextLaws.WrapWitness | src/genllvm.cc:179-186 | For every other bias and element count there is an index for which the wrap-around picks a wrong element. |
| ContextLaws.SlotsApart | src/genllvm.cc:166-193 | Two elements of one array are the same bytes or disjoint bytes. |
| ContextLaws.ByteAddress | src/genllvm.cc:260-264 | The address computed for a byte offset is the offset rounded down to a multiple of the access size, hence right if and only if the offset is aligned. |
| ContextLaws.WriteLookup | src/genllvm.cc:196-205 | Which byte every address of a store holds after a write. |
| ContextLaws.ReadBack | src/genllvm.cc:156-205 | Reading what was written gives the low bytes of it. |
| ContextLaws.ReadElsewhere | src/genllvm.cc:156-205 | A write leaves reads of disjoint bytes unchanged. |
| BlockLaws.ExitKindRecorded | src/vexsb.cc:166-196 | The exit byte left behind tells the jump actually taken, guarded or at the end, if and only if the jump is none of Boring, NoRedir and ClientReq or the byte was clear before. In numbers: 0 exactly for these three, 1 for SigTRAP, 2 for MapFail and SigSEGV, 4 for EmWarn and NoDecode, 5 for SysSyscall and SysSysenter, 6 for Call, 7 for Ret, 8 for Yield, 9 for SysInt128. |
| BlockLaws.KindLeft | src/vexstmt.cc:497-500 | Over any run of statements the exit byte changes only by the exit that is taken. |
| BlockLaws.CasExact | src/vexstmt.cc:279-296 | Double-width compare-and-swap as coded leaves, byte for byte as any reader finds it, the memory that VEX means if and only if the stated condition on the halves holds; the temporaries are always right. |
| BlockLaws.CasBlockExact | src/vexstmt.cc:229-306 | The function emitted for a superblock that is one double-width compare-and-swap returns the right address, with a guest that no read can tell from the right one, if and only if that condition holds. |
| BlockLaws.EvalSame | src/vexexpr.cc:728-974 | No expression can tell a byte never written from a zero byte. |
| BlockLaws.CasStoresOnMismatch | src/vexstmt.cc:279-296 | A concrete block where both halves differ from what is expected and the emitted code stores all the same. |
| GuardedCalls.GuardedCallsExact | src/vexstmt.cc:347-414 | A superblock that is well formed once results of guarded calls may be used returns the VEX result if and only if nothing executed on the way through it reads the result of a call that did not happen, the untaken arm of an if-then-else not being executed; on every other guest its function returns nothing at all. |
| GuardedCalls.SoundExact | src/vexstmt.cc:347-414 | The same with double-width compare-and-swap, for the meaning as coded. |
| GuardedCalls.LooseRuns | src/vexsb.cc:151-202 | A run that is sound in this sense is followed to its return; one that is not gets as far as an instruction or a branch that reads a register never written. |
| GuardedCalls.RunTracked | src/vexsb.cc:160-161 | Statement after statement: which temporaries have values, and where a run without them ends. |
| GuardedCalls.SimulateTracked | src/vexstmt.cc:31-661 | One statement that reads nothing without a value, the renaming of a temporary without one included. |
| GuardedCalls.JamTracked | src/vexstmt.cc:31-661 | One statement that does read something without a value gets stuck in the code emitted for it, whichever of its operands that is. |
| JamExpr.BadExpr | src/vexexpr.cc:728-974 | An expression that reads a temporary without a value is stuck in its own code, or is that temporary itself and its operand has no value. |
| GuardedCalls.SoundMeans | src/vexstmt.cc:347-414 | A sound run comes to what the statements do with every call result taken as it is. |
| GuardedCalls.HappenSound | src/vexstmt.cc:347-414 | Runs on which every guarded call with a result happens are sound. |
| GuardedCalls.CallsHappenExact | src/vexstmt.cc:347-414 | In particular it returns the VEX result and nothing else on every guest on which all guarded calls with results happen. |
| GuardedCalls.GuardedDirtyExact | src/vexstmt.cc:361-413 | The block that goes on at the result of a guarded helper call returns the VEX result where the guard holds, and nothing at all where it fails. |
| TypeLaws.ReadsMade | src/genllvm.cc:132-154 | A register, an element of a register array, and a word of memory of each type have a value of 8, 16, 32, 64, 32, 64, 128 or 256 bits whose bytes, the low one first, are those of the store from its offset, its element, or its address modulo 2^64 on; bytes never written are zero. |
| TypeLaws.GetHalves | src/genllvm.cc:132-164 | A 16-, 32-, 64-, 128- or 256-bit register is its two halves, the low one at the lower offset; an 8-bit one is a byte of the context; floats and doubles are the bits of 32- and 64-bit integers. |
| TypeLaws.LoadHalves | src/genllvm.cc:132-154 | The same for words of memory at any two addresses as far apart as the half is wide. |
| TypeLaws.ConstIs | src/vexexpr.cc:635-726 | Integer and double constants are their bits; byte i of a 128- or 256-bit constant is 255 exactly when bit i of its mask is set, and 0 otherwise. |
| TypeLaws.MuxType | src/vexexpr.cc:891-960 | What is emitted for an if-then-else has the type of its first arm, except that a vector of 64 bits or less becomes an integer of its width; larger vectors stay as they are. |
| TypeLaws.GuardedLoadExact | src/vexstmt.cc:594-661 | A guarded load whose guard holds is a plain load of 1, 2, 4 or 16 bytes whose unsigned or signed value is kept in 32 bits; otherwise it is the alternative; nothing else changes. |
| TypeLaws.HelperResult | src/vexstmt.cc:383-407 | The result of a helper call has the width of its temporary, a wider one cut to the low bits. |
| BlockLaws.EvalTyped | src/vexexpr.cc:728-974 | The value of a well-formed expression has the width of the type the emitter gives it. |
| BlockLaws.ExecTyped | src/vexstmt.cc:31-661 | Statements keep every temporary at the width of its recorded type. |
| BlockLaws.WriteSame | src/vexstmt.cc:289-296 | Two writes leave the same bytes to every reader if and only if the bytes written agree. |
| Emitter.GenLLVM.constructor | src/genllvm.cc:30-52 | A generator that is between functions, with empty memo tables. |
| Emitter.GenLLVM.BeginBB | src/genllvm.cc:83-111 | Starts a function: one empty entry block, which is the insertion point. |
| Emitter.GenLLVM.EndBB | src/genllvm.cc:113-130 | Ends the function with its return and forgets both memo tables, so that the next function can begin. |
| Emitter.GenLLVM.CtxTyGEP | src/genllvm.cc:273-309 | An address in units of a type; a cast of the context pointer is remembered and reused in the entry block only. The new state of the function under construction is the one that the simulation and dominance results are about. |
| Emitter.GenLLVM.CtxByteGEP | src/genllvm.cc:235-270 | The address of a byte offset; reused from the memo table only in the entry block and only for the very same type. |
| Emitter.GenLLVM.ReadCtx | src/genllvm.cc:156-164 | Emits a read of a context slot. |
| Emitter.GenLLVM.WriteCtx | src/genllvm.cc:196-205 | Emits a write of a context slot. |
| Emitter.GenLLVM.IndexOffset | src/genllvm.cc:173-187 | Emits the 32-bit index arithmetic. |
| Emitter.GenLLVM.ReadCtxIx | src/genllvm.cc:166-193 | Emits an indexed read, for arrays that start at a multiple of the access size. |
| Emitter.GenLLVM.WriteCtxIx | src/genllvm.cc:207-233 | Emits an indexed write, for arrays that start at a multiple of the access size. |
| Emitter.GenLLVM.HostPointer | src/genllvm.cc:323-340 | Emits the widening of a 32-bit address, the relocation, and the cast to a pointer. |
| Emitter.GenLLVM.Load | src/genllvm.cc:342-391 | Emits a load from guest memory. |
| Emitter.GenLLVM.Store | src/genllvm.cc:311-340 | Emits a store to guest memory. |
| Emitter.GenLLVM.SetExitType | src/genllvm.cc:409-416 | Emits the write of the exit byte. |
| Emitter.GenLLVM.FlattenType | src/vexexpr.cc:891-904 | Emits the cast of a 64-bit vector to an integer. |
| Emitter.GenLLVM.LoadConverted | src/vexstmt.cc:617-649 | Emits the load and the conversion of a guarded load. |
| Emitter.GenLLVM.Leave | src/vexstmt.cc:495-507 | Emits the leaving block of a guarded exit and goes on in the other. |
| Emitter.VexSB.constructor | src/vexsb.cc:53-63 | Every temporary starts without a value. |
| Emitter.VexSB.SetRegValue | src/vexsb.cc:265-269 | Fills the slot of a temporary that has no value yet, and no other slot. |
| Emitter.VexSB.GetRegValue | src/vexsb.cc:271-275 | The value of a temporary that has one. |
| Emitter.VexSB.Clear | src/vexsb.cc:156-156 | Empties all slots. |
| Emitter.VexSB.EmitExpr | src/vexexpr.cc:728-974 | Emits an expression by moving the insertion point; the function built and the operand are those the simulation is proved for. |
| Emitter.VexSB.EmitExprs | src/vexexpr.cc:774-804 | Emits argument lists in order. |
| Emitter.VexSB.EmitMux | src/vexexpr.cc:906-960 | Emits an if-then-else: three blocks, the arms emitted into theirs, the phi over the blocks where they ended. |
| Emitter.VexSB.EmitStoreG | src/vexstmt.cc:534-564 | Emits a guarded store. |
| Emitter.VexSB.EmitLoadGuarded | src/vexstmt.cc:594-661 | Emits a guarded load and fills its temporary. |
| Emitter.VexSB.EmitCas | src/vexstmt.cc:229-306 | Emits a single-width compare-and-swap and fills its temporary. |
| Emitter.VexSB.EmitHigh | src/vexstmt.cc:249-286 | Emits the high half of a double-width compare-and-swap. |
| Emitter.VexSB.EmitCasPair | src/vexstmt.cc:229-306 | Emits a double-width compare-and-swap and fills both temporaries. |
| Emitter.VexSB.EmitHelperCall | src/vexstmt.cc:376-408 | Emits a helper call and fills its temporary, if it has one. |
| Emitter.VexSB.EmitDirty | src/vexstmt.cc:347-414 | Emits a helper call, guarded unless the guard is the literal one. |
| Emitter.VexSB.EmitExit | src/vexstmt.cc:473-508 | Emits a guarded exit. |
| Emitter.VexSB.EmitStmt | src/vexstmt.cc:31-661 | Emits any statement; afterwards the slots hold exactly the temporaries assigned so far. |
| Emitter.VexSB.Emit | src/vexsb.cc:151-202 | Emits the whole superblock: the function returned is the one of the lowering theorems, and the generator is ready for the next. |
| Emitter.TypedStmt | src/vexstmt.cc:31-661 | What a statement assigns has the recorded type, and nothing else is assigned. |
| DirectMapped.CacheInvisible | src/directcache.h:21-43 | After any sequence of lookups, insertions, removals, forgets and flushes, a lookup through the direct-mapped cache is a plain map lookup. |
| DirectMapped.RunAgrees | src/vexfcache.cc:87-120 | Whatever slots collide, no entry ever disagrees with the map behind the cache. |
| DirectMapped.DropAgrees | src/vexfcache.cc:168-171 | Overwriting a slot with NULL when its address leaves the map keeps the agreement. |
| DirectMapped.AddAgrees | src/vexfcache.cc:138-155 | A map may gain an address that the direct cache does not know. |
| DirectMapped.PutAgrees | src/vexfcache.cc:82-83 | Filing an entry in map and slot keeps the agreement. |
| DirectMapped.DirectCache.Put | src/directcache.h:21-27 | Overwrites the one slot of the address, which is the address divided by 4, modulo 4096, whatever was there. |
| DirectMapped.DirectCache.Get | src/directcache.h:29-35 | The entry of this very address, not of another one in the same slot. |
| DirectMapped.DirectCache.Flush | src/directcache.h:37-37 | Empties every slot. |
| CacheRuns.AgreementKept | src/vexjitcache.cc:71-165 | Over any run of lookups, compilations, evictions, flushes and changes of the bound: compiled code only for known functions, functions only for known superblocks, entries of one address belong together, and the bound holds. |
| CacheRuns.FlushedIsGone | src/vexjitcache.cc:158-165 | Hence a flush at any time leaves no superblock, function or compiled code in its range, and changes nothing outside it. |
| CacheRuns.DoKeeps | src/vexjitcache.cc:71-165 | Every single cache operation keeps the agreement of the three maps. |
| CodeMaps.GetVsbKeeps | src/vexfcache.cc:60-85 | A lookup gives the cached superblock or the fresh translation, files it, evicts at most when full, and keeps the agreement. |
| CodeMaps.GetFuncKeeps | src/vexfcache.cc:122-155 | A function lookup gives the function of the superblock at the address and keeps the agreement. |
| CodeMaps.GetFPtrKeeps | src/vexjitcache.cc:71-138 | Compiling gives the code of the superblock at the address; the agreement is kept without compiling ahead, and with it as long as the cache is not full afterwards, and then nothing is lost. |
| AheadMaps.CompilesExactly | src/vexjitcache.cc:71-138 | Compiling ahead, while everything fits: the maps afterwards are the maps before with the superblocks, functions and compiled code of exactly the address asked for, its constant exits, and the exits of the one function these bring in if it is just one. |
| AheadMaps.AlongLoop | src/vexjitcache.cc:90-119 | The work-list loop looks at those addresses and at no others, and knows exactly the functions there when it ends. |
| AheadMaps.AheadKeeps | src/vexjitcache.cc:71-138 | While everything fits, compiling ahead keeps the agreement of the three maps. |
| AheadVictims.AgreesExact | src/vexjitcache.cc:71-138 | Compiling ahead keeps the maps in agreement whatever superblocks eviction picks if and only if what is cached, less what gives way to the superblock asked for, fits together with all that is looked up. |
| AheadVictims.Unfit | src/vexfcache.cc:43-58 | When not everything fits there is a choice of victims that leaves compiled code behind without its function. |
| AheadMaps.FewFit | src/vexjitcache.cc:83-119 | Everything fits when the cache has room for one superblock and twice the largest number of constant exits. |
| AheadMaps.VsbFirst | src/vexjitcache.cc:71-82 | Looking the superblock up before compiling it changes nothing. |
| CodeMaps.GetFPtrAdds | src/vexjitcache.cc:83-119 | Every superblock cached after compiling, ahead or not, was cached before or is a fresh translation of its address. |
| CodeMaps.GetFPtrReach | src/vexjitcache.cc:83-119 | What compiling ahead adds is at the constant exits of the function or at theirs, and nowhere else. |
| CodeMaps.FetchLoopReach | src/vexjitcache.cc:90-119 | The work-list loop never looks further than two rounds of exits. |
| CodeMaps.FetchLoopKeeps | src/vexjitcache.cc:90-119 | The work-list loop over constant exits files only known functions under their own addresses. |
| CodeMaps.EvictKeeps | src/vexjitcache.cc:140-149 | Eviction removes one address from all three maps and nothing else. |
| CodeMaps.FlushRangeKeeps | src/vexjitcache.cc:158-165 | A range flush empties the range in all three maps and keeps everything else, given the agreement. |
| CodeMaps.FlushRangeExact | src/vexjitcache.cc:158-165 | A range flush removes all compiled code of its range if and only if all of it belongs to known functions. |
| CodeMaps.AheadLeaks | src/vexjitcache.cc:89-119 | With a full cache, compiling ahead evicts the superblock asked for; its compiled code then survives a flush of its address. |
| CodeCaches.CodeCache.constructor | src/vexfcache.cc:16-29 | Starts with nothing cached and the default bound. |
| CodeCaches.CodeCache.GetCachedVSB | src/vexfcache.cc:87-104 | Equals the map lookup, through the direct cache, and leaves the maps alone. |
| CodeCaches.CodeCache.GetCachedFunc | src/vexfcache.cc:106-120 | Equals the map lookup, through the direct cache, and leaves the maps alone. |
| CodeCaches.CodeCache.GetCachedFPtr | src/vexjitcache.cc:25-39 | Equals the map lookup, through the direct cache, and leaves the maps alone. |
| CodeCaches.CodeCache.EvictBase | src/vexfcache.cc:157-172 | Removes the function and the superblock of an address from maps and direct caches. |
| CodeCaches.CodeCache.Evict | src/vexjitcache.cc:140-149 | Removes an address from all three maps and direct caches. |
| CodeCaches.CodeCache.FlushAll | src/vexjitcache.cc:151-156 | Empties everything. |
| CodeCaches.CodeCache.SetMaxCache | src/vexfcache.cc:36-40 | Changes the bound, flushing when it shrinks. |
| CodeCaches.CodeCache.FlushRange | src/vexjitcache.cc:158-165 | Removes a range from all three maps and direct caches. |
| CodeCaches.CodeCache.FlushJits | src/vexjitcache.cc:160-163 | Removes compiled code at the addresses of the functions in the range. |
| CodeCaches.CodeCache.FlushBase | src/vexfcache.cc:190-219 | Removes superblocks and functions in the range. |
| CodeCaches.CodeCache.FlushVsbs | src/vexfcache.cc:194-205 | Removes the superblocks in the range, from map and direct cache. |
| CodeCaches.CodeCache.FlushFuncs | src/vexfcache.cc:207-218 | Removes the functions in the range, from map and direct cache. |
| CodeCaches.CodeCache.SelectVictimAddress | src/vexfcache.cc:43-58 | Picks the address of a cached superblock, never zero. |
| CodeCaches.CodeCache.AllocCacheVSB | src/vexfcache.cc:70-85 | Files a translation, evicting one superblock when the cache is full. |
| CodeCaches.CodeCache.GetVSB | src/vexfcache.cc:60-68 | The cached superblock or a fresh one. |
| CodeCaches.CodeCache.GenFunctionByVSB | src/vexfcache.cc:138-155 | Files the function under the address of its superblock. |
| CodeCaches.CodeCache.GetFunc | src/vexfcache.cc:122-136 | The cached function or a fresh one. |
| CodeCaches.CodeCache.FetchExits | src/vexjitcache.cc:83-119 | The work-list loop with its queue, work set and complete set, exactly as the maps say. |
| CodeCaches.CodeCache.ScanAll | src/vexjitcache.cc:95-112 | The exits of one function join queue and work set once each. |
| CodeCaches.CodeCache.AddCompiled | src/vexjitcache.cc:128-131 | Files the compiled functions that were found ahead. |
| CodeCaches.CodeCache.GetFPtr | src/vexjitcache.cc:71-138 | Compiled code for an address, with its exits compiled along when guest and host addresses coincide. |
| FreshRuns.NoStaleCode | src/vexexec.cc:111-198 | A guest that starts with nothing translated never runs stale code, compiling ahead or not, over any run in which no request for a mapping with cached code is lost and what is compiled ahead fits and is shielded. |
| FreshRuns.RunFresh | src/vexexec.cc:111-198 | The same from every state in which cached code is up to date under write protection or about to be flushed. |
| FreshRuns.StepFresh | src/vexexec.cc:137-198 | One calm dispatch, compiling ahead or not: what is run from a mapping is the translation of the bytes in memory now, and the invariant holds again afterwards. |
| FreshRuns.StepExact | src/vexexec.cc:137-198 | One dispatch whose compiling ahead fits keeps everything cached up to date or waiting for its flush if and only if what it compiles ahead is shielded and its stores lose no request; what it runs is the translation of memory either way. |
| Translation.RunMeans | src/vexexec.cc:111-198 | The translator as a whole: over any calm run the translated guest has the registers, memory and address that interpreting superblock after superblock gives, each decoded from memory as it was then, and the call depth is the number of superblocks left by a Call jump minus the number left by a Ret jump in that interpretation. |
| Translation.StepMeans | src/vexexec.cc:111-198 | One dispatch: the emitted function of the superblock found does what the superblock decoded from memory now means, and the call depth moves by the jump it was left by. |
| Translation.DispatchByJump | src/vexexec.cc:152-197 | After a superblock has run, the jump it was left by, at a guarded exit or at the end, decides: depth rises by one exactly after Call and falls by one exactly after Ret; the guest ends exactly if SysSyscall, SysSysenter or SysInt128 made a system call that exits; MapFail, SigSEGV and Yield are given up on, and everything else goes on. The byte is 1 exactly after SigTRAP and clear exactly after Boring, NoRedir and ClientReq. |
| Translation.PerformsMeans | src/vexexec.cc:290-302 | What the emitted function returns and stores is what interpreting its superblock gives, and its exit byte tells the jump taken. |
| Tampering.WritesExact | src/vexexec.cc:355-398 | Stores between two dispatches keep everything cached up to date or waiting for its flush if and only if every protected mapping they hit, other than the one first hit last, has nothing cached. |
| Tampering.OpenStays | src/vexexec.cc:355-398 | What is cached inside no write-protected mapping never becomes safe again by storing: nothing will ask for its flush. |
| Tampering.OneFaultExact | src/vexexec.cc:355-398 | No request is overwritten if and only if no two stores hit different protected mappings, and if and only if every mapping found opened afterwards is waiting for its flush. |
| Tampering.OneFaultLosesNone | src/vexexec.cc:355-358 | Stores that fault on one mapping at most lose nothing. |
| AheadFreshness.LookupExact | src/vexexec.cc:216-273 | A lookup that compiles ahead what fits keeps everything cached up to date if and only if every address that compiling ahead looks at is cached already, cannot be translated, or lies in no mapping or a write-protected one that its text does not leave, all of which can be read off the state before; nothing compiled ahead, or an address compiled already, always keeps it. The maps stay in agreement, and what is found is the translation of memory as it is, either way. |
| AheadFreshness.ShieldedExact | src/vexexec.cc:216-273 | What such a lookup adds is covered by write protection if and only if those addresses are shielded beforehand. |
| AheadFreshness.AddedExact | src/vexexec.cc:216-273 | A lookup in any cache, full or not, finds the translation of memory as it is, and keeps everything cached up to date if and only if every superblock it has added lies in a write-protected mapping, or in none. |
| AheadFreshness.ShieldedCovered | src/vexjitcache.cc:83-119 | When all exits and theirs are shielded, what is added is covered even if not everything fits. |
| AheadFreshness.LookupReach | src/vexjitcache.cc:83-119 | Even if not everything fits, a lookup adds superblocks at the address asked for and at two rounds of exits only. |
| Freshness.GetSBFresh | src/vexexec.cc:216-273 | Looking a superblock up after pending flushes gives the translation of memory as it is, and leaves its mapping write-protected. |
| Freshness.FlushSettles | src/vexexec.cc:137-142 | The flush before the lookup removes every superblock that waited for it. |
| Freshness.FlushedMapping | src/vexexec.cc:137-142 | No superblock that starts in the tampered mapping survives the flush, margins included. |
| Freshness.WriteKeeps | src/vexexec.cc:360-398 | A store, faulting or not, keeps the invariant. |
| Freshness.FaultKeeps | src/vexexec.cc:383-387 | The fault handler makes one mapping writable and asks for its flush, which keeps the invariant. |
| FreshRuns.SecondFaultWins | src/vexexec.cc:355-358 | If two mappings fault between two dispatches the first request is lost, and its old superblock is dispatched again. |
| FreshRuns.OffsetZeroNeverFlushed | src/vexexec.cc:137-142 | A request is taken for none, and kept, if and only if its mapping starts at address zero. |
| FreshRuns.FlushExact | src/vexexec.cc:137-142 | The flush asked for by the fault handler leaves nothing of the mapping in any cache if and only if the mapping stays clear of both ends of the address space by 1024 bytes; otherwise the range wraps around and misses some of it. |
| FreshRuns.HungExact | src/vexexec.cc:383-387 | A store faults for ever if and only if its mapping is executable, protected, and was never asked to be writable. |
| FreshRuns.DepthCounts | src/vexexec.cc:153-198 | Given the kinds of the runs: the exit byte is clear at every dispatch, the call depth is calls minus returns, and the next address is that of the last run. What the kinds are is Translation.RunMeans. |
| StepLaws.DispatchExact | src/vexexec.cc:152-197 | A superblock that is run stops the guest if and only if its exit byte is 5 or 9 and the system call exits; then the byte is clear and next address and depth are as before. Bytes 2, 3, 8 and above 9 are given up on. Every other one goes on at the target with the byte clear, one deeper after 6, one less deep after 7. |
| StepLaws.NoDispatch | src/vexexec.cc:137-150 | A trip that runs no superblock never goes on; it stops if and only if the guest has ended, the next address is zero, or the lookup refuses, and leaves address, depth and byte alone. |
| StepLaws.EndStays | src/vexexec.cc:311-336 | After the system call that ends the guest every later trip stops in the same state, so no superblock is run after it. |
| StepLaws.EndsOnlyByExit | src/vexexec.cc:111-198 | No trip ends the guest in any other way. |
| StepLaws.GoesThrough | src/vexexec.cc:304-309 | The loop goes through a run of superblocks if and only if each of them is found and run to its end, is left by a kind the dispatcher knows, and does not end the guest. |
| StepLaws.LookupOutcome | src/vexexec.cc:216-273 | A lookup refuses if and only if the mapping may not be executed or there is neither a cached superblock nor a translation; then nothing is cached, and in the first case nothing is protected either. It aborts if and only if the code reaches the end of its mapping. A writable mapping that it goes by loses write permission and nothing else. |
| StepLaws.StoreOutcome | src/vexexec.cc:360-398 | A store outside write-protected mappings changes one byte of memory. One that faults on an executable mapping makes it writable and not executable and asks for the whole mapping to be flushed, if the guest may write there; it faults for ever if not, and on other mappings ends the process. |
| StepLaws.StoresLand | src/vexexec.cc:290-302 | After the stores of a run, faults handled on the way, an address holds what the last store to it put there. |
| StepLaws.StoresMiss | src/vexexec.cc:290-302 | ... and what it held before if no store went there. |
| StepLaws.FoundCompiled | src/vexexec.cc:252-285 | Whatever a lookup finds has compiled code filed at the address asked for, and that is the code of the superblock found, compiled ahead or not, so the run that follows finds its function. |
| AheadStaleness.AheadStale | src/vexexec.cc:242-267 | With compiling ahead a dispatch can be stale although nothing faulted: only the mapping of the superblock asked for is protected, not those of its exits. |
| VexExecs.VexExec.constructor | src/vexexec.cc:75-108 | A guest at its entry with nothing translated. |
| VexExecs.VexExec.FlushTamperedCode | src/vexexec.cc:355-358 | Remembers one range, overwriting an earlier one. |
| VexExecs.VexExec.FindMapping | src/vexexec.cc:225-225 | The mapping that holds an address. |
| VexExecs.VexExec.SignalHandler | src/vexexec.cc:362-398 | Opens a protected executable mapping and asks for its flush; otherwise the process ends. |
| VexExecs.VexExec.Store | src/vexexec.cc:360-398 | A store of the running code, retried after a handled fault. |
| VexExecs.VexExec.DoVexSB | src/vexexec.cc:290-302 | All stores of a run, and the exit byte of a special exit. |
| VexExecs.VexExec.ProtectMapping | src/vexexec.cc:242-249 | Takes write permission from a writable mapping. |
| VexExecs.VexExec.Obtain | src/vexexec.cc:252-267 | Finds or translates the superblock, then compiles it. |
| VexExecs.VexExec.GetSBFromGuestAddr | src/vexexec.cc:216-273 | Refuses non-executable mappings, protects, looks up, compiles, and aborts on code that spans the mapping end. |
| VexExecs.VexExec.DoNextSB | src/vexexec.cc:111-198 | One trip round the dispatch loop, with all its ways to stop; only a system call that exits ends the guest, and then next address and depth are as before and the byte is clear. |
| VexExecs.VexExec.HandleExit | src/vexexec.cc:155-197 | The switch on the exit byte, its reset, and the next address: stops exactly at 5 or 9 when the system call exits, leaving address and depth alone; gives up exactly on unknown bytes; otherwise goes on at the target, one deeper after 6 and one less deep after 7. |
| VexExecs.VexExec.ApplyFlush | src/vexexec.cc:137-142 | Flushes the pending range with its margins and forgets it. |
| VexExecs.VexExec.FlushCache | src/vexexec.cc:138-140 | Passes a range flush on to the caches. |
| ThunkTypes.NextSkips | src/qemu/translatedthunk.c:34-63 | Skipping a type consumes exactly the cells it is written in, which start with the number of the type, 1 to 11. |
| Thunks.DecodeCells | src/qemu/translatedthunk.c:34-63 | Descriptors are unambiguous: the cells of a type read back as that type. |
| Thunks.NextAgrees | src/qemu/translatedthunk.c:125-242 | Conversion and skipping leave the descriptor at the same place if and only if the type is not a pointer with a target. |
| ThunkTypes.CellsSize | src/qemu/translatedthunk.h:85-156 | Size and alignment read off the cells, type by type and on either side: 1, 2, 4 and 8 bytes for char, short, int and long long; for long, unsigned long and pointers the bytes of a long in the ABI of that very side; the element size times the count for arrays; what was registered for that side for structs. |
| ThunkTypes.MaskRounds | src/qemu/translatedthunk.c:97-97 | Masking with the complement of 2^k - 1 rounds down to a multiple of 2^k. |
| ThunkTypes.AlignUpLeast | src/qemu/translatedthunk.c:97-97 | The mask arithmetic gives the least multiple of the alignment that is not below the offset. |
| ThunkLayout.LayoutLaws | src/qemu/translatedthunk.c:89-111 | In both layouts each field sits at the least aligned offset after the one before, and the size is the least multiple of the largest alignment after the last. |
| ThunkLayout.FieldsApart | src/qemu/translatedthunk.c:89-111 | Field offsets are aligned, ascending and pairwise disjoint, and fields end inside the struct. |
| ThunkLayout.StackedApart | src/qemu/translatedthunk.c:94-103 | The same for any fields stacked one after the other. |
| ThunkLayout.LayoutAlign | src/qemu/translatedthunk.c:100-106 | The alignment of a struct is the largest among its fields. |
| ThunkLayout.AlignPower | src/qemu/translatedthunk.h:122-156 | Every alignment, of arrays and nested structs too, is a power of two up to eight. |
| ThunkLayout.SizeMultiple | src/qemu/translatedthunk.h:85-156 | Every size is a multiple of the alignment, so array elements stay aligned. |
| Thunks.Registered | src/qemu/translatedthunk.c:65-112 | Registering a struct keeps all earlier layouts and the laws of the registry. |
| ThunkConversion.LeavesAscend | src/qemu/translatedthunk.c:190-236 | The scalars of an object lie one after the other inside it, in both layouts, in the order in which they are converted. |
| ThunkLaws.LeavesStayAligned | src/qemu/translatedthunk.c:190-236 | In an aligned object every scalar is at a multiple of its own width, in array elements and nested structs too. |
| ThunkLaws.ConversionFrame | src/qemu/translatedthunk.c:125-242 | Conversion changes bytes of the destination object only, and never its padding. |
| ThunkLaws.ApplyWrites | src/qemu/translatedthunk.c:125-242 | After conversion every scalar of the destination holds the converted scalar of the source. |
| ThunkLaws.RoundTrip | src/qemu/translatedthunk.c:125-242 | Converting there and back restores every data byte if and only if every scalar fits the other side. |
| ThunkNumbers.LongConverts | src/qemu/translatedthunk.c:151-189 | Converting a long, unsigned long or pointer reads exactly the bytes that the ABI of the side it comes from gives a long and writes exactly those of the other side. Widened, a long keeps its signed value and the others their number; cut, the low part stays. |
| ThunkNumbers.LongReturns | src/qemu/translatedthunk.c:151-189 | There and back restores it if and only if its value is in the signed (for a long) or unsigned range of 8 times the bytes that the other side gives a long. |
| ThunkNumbers.IntThenLong | src/qemu/translatedthunk.c:89-111 | An int and a long for a 32-bit target on a 64-bit host: offsets 0 and 4 and size 8 on the target, offsets 0 and 8 and size 16 on the host. |
| ThunkParts.ArrayByElement | src/qemu/translatedthunk.c:190-208 | What converting an array makes of its element i is what converting that element alone makes of it, i element sizes into the array on either side. |
| ThunkParts.StructByField | src/qemu/translatedthunk.c:209-236 | What converting a struct makes of its field i is what converting that field alone makes of it, at the offset that each side gives the field. |
| ThunkParts.FixedCopied | src/qemu/translatedthunk.c:132-150 | Scalars of 1, 2, 4 or 8 bytes on both sides are copied byte for byte and nothing else changes; a pointer with a target is left alone. |
| ThunkLaws.TargetRestored | src/qemu/translatedthunk.c:151-189 | Target to host and back restores every data byte when longs are no narrower on the host. |
| ThunkLaws.UnsignedFits | src/qemu/translatedthunk.c:151-189 | An unsigned long fits if and only if its value is below the narrower bound. |
| ThunkLaws.SignedFits | src/qemu/translatedthunk.c:155-165 | A signed long fits if and only if its value is in the signed range of the narrower side. |
| ThunkLaws.ResizeNumber | src/qemu/translatedthunk.c:159-164 | Cutting keeps the low part of the number; extending without a sign keeps the number. |
| ThunkLaws.ResizeSigned | src/qemu/translatedthunk.c:156-158 | Sign extension keeps the signed value. |
| Thunks.Thunk.RegisterStruct | src/qemu/translatedthunk.c:65-112 | Counts the fields, lays them out for both sides and files the struct; the registry stays lawful. |
| Thunks.Thunk.LayoutFields | src/qemu/translatedthunk.c:89-106 | The loop over fields computes the layout of the laws. |
| Thunks.Thunk.ThunkConvert | src/qemu/translatedthunk.c:125-242 | Converts in place exactly the scalars of the type, and returns the descriptor after it; a pointer with a target may only be the last field of a struct that the type is made of. |
| Thunks.Thunk.ConvertObject | src/qemu/translatedthunk.c:125-242 | Needs no more room than the type has on each side. |
| Thunks.Thunk.ConvertScalar | src/qemu/translatedthunk.c:132-189 | Copies, cuts or extends one number, by sign for TYPE_LONG. |
| Thunks.Thunk.ConvertArray | src/qemu/translatedthunk.c:190-208 | Steps through source and destination by their own element sizes. |
| Thunks.Thunk.ConvertStruct | src/qemu/translatedthunk.c:209-236 | Walks field types and both offset tables in step. |
| Thunks.Thunk.StoreBytes | src/qemu/translatedthunk.c:132-189 | Writes its bytes and no others. |
| BitMasks.TargetToHostBitmask | src/qemu/translatedthunk.c:249-261 | The loop over the table ends at the first empty mask and gathers the host bits of all matching rows. |
| BitMasks.HostToTargetBitmask | src/qemu/translatedthunk.c:263-275 | The same in the other direction. |
| BitMasks.RowsEnd | src/qemu/translatedthunk.c:255-257 | The rows in force are exactly those before the first one with an empty mask on either side. |
| BitMasks.FieldSet | src/qemu/translatedthunk.c:249-261 | With tables of flags and of fields with several values, the host field of a row holds its value if and only if the row matched, or the value is empty and no row of the field matched. |
| BitMasks.ThereAndBack | src/qemu/translatedthunk.c:249-275 | To the host and back gives exactly the values of those rows. |
| BitMasks.FieldThereAndBack | src/qemu/translatedthunk.c:249-275 | To the host and back restores a field if and only if the table lists its value, or it is clear and no value of the field is empty on the host. |
| VexOps.QSignedSaturates | src/vexop.cc:1424-1463 | At every lane width, widening by one bit, adding or subtracting, clamping and cutting is signed saturation of the exact result. |
| VexOps.QAddUnsignedSaturates | src/vexop.cc:1465-1478 | Unsigned addition with the upper clamp only saturates exactly. |
| VexOps.QSubUnsignedSaturates | src/vexop.cc:1465-1478 | Unsigned subtraction with the lower clamp only, compared as signed, saturates exactly. |
| VexOps.MulHiExact | src/vexop.cc:1273-1305 | The high half is the exact product divided by 2^n rounding down, signed lanes included, although the shift is a logical one. |
| VexOps.AvgExact | src/vexop.cc:1481-1518 | The average is half of the exact sum plus one, rounded down, for signed and unsigned lanes. |
| VexOps.HalveExact | src/vexop.cc:1521-1551 | Halving addition and subtraction give bits n to 1 of the exact sum or difference. |
| VexOps.NarrowUnsigned | src/vexop.cc:1337-1392 | Narrowing to unsigned lanes clamps the signed value to the unsigned range. |
| VexOps.NarrowSigned | src/vexop.cc:1393-1407 | Narrowing to signed lanes clamps the signed value to the signed range of half the width. |
| VexOps.AmountsKeep | src/vexop.cc:1584-1608 | The shift amount, widened to the vector, cast to lanes and shuffled, or a constant repeated, reaches every lane unchanged. |
| VexOps.ShiftAllExact | src/vexop.cc:1577-1639 | Every lane of a shift has a value if and only if the amount is less than the lane width, and then it is multiplied or divided by the power of two, rounding down, as unsigned or signed lanes. |
| VexOps.AShrDivides | src/vexop.cc:1609-1609 | Shifting the sign in divides the signed lane by the power of two, rounding down. |
| VexOps.DivModUExact | src/vexop.cc:1038-1055 | Unpacking the packed division gives a = q*b + r with r < b if and only if the quotient fits its half. |
| VexOps.DivModSExact | src/vexop.cc:1038-1056 | The signed form: the remainder is always the truncating one, the quotient is right if and only if it is in range of its half. |
| VexOps.SRemSmall | src/vexop.cc:1045-1046 | The truncating remainder is smaller than the divisor and has the sign of the dividend. |
| VexLanes.QSignedLanes | src/vexop.cc:1424-1463 | The lane loop saturates every lane and mixes none. |
| VexLanes.QUnsignedLanes | src/vexop.cc:1465-1478 | The same for unsigned lanes. |
| VexLanes.AvgLanes | src/vexop.cc:1481-1507 | The lane loop averages every lane. |
| VexLanes.HalveLanes | src/vexop.cc:1521-1542 | The lane loop halves every sum or difference. |
| VexLanes.NarrowLanes | src/vexop.cc:1337-1392 | The two loops put the lanes of the second operand first. |
| VexLanes.SelectLanes | src/vexop_macros.h:86-106 | Each lane of the result is one of the two lanes, and no smaller (or no larger) than both as the operator reads them. |
| VexLanes.Dup8x16 | src/vexop.cc:759-779 | Four doublings give sixteen copies of the byte. |
| VexLanes.RepeatTwice | src/vexop.cc:772-776 | Or-ing a repetition with itself shifted past its end doubles it. |
| VexLanes.GetMSBs | src/vexop.cc:854-874 | Bit i of the result is the top bit of byte i, and there are no other bits. |
| VexLanes.GatherBit | src/vexop.cc:861-870 | Bit i of the gathered word is the i-th bit or-ed in. |
| VexLanes.Bitmask8ToBytemask64 | src/vexexpr.cc:669-678 | Byte i of the mask is 0xFF exactly when bit i is set. |
| VexLanes.MaskConcat | src/vexexpr.cc:680-716 | The masks of the single bytes, put side by side, are the mask of the whole constant. |
| VexLanes.CountTrailingZeros | support/vexops.c:33-42 | The number of trailing zero bits; the width for zero. |
| VexLanes.CountLeadingZeros | support/vexops.c:45-54 | The number of leading zero bits; the width for zero. |
| VexMachine.VecBlockExact | src/vexop.cc:1424-1551 | From registers to registers: the function emitted for a vector instruction that saturates, averages, halves or multiplies high returns to the next address and nowhere else; every lane of the destination register in the guest context is then the exact result for the lanes of the source registers, and no other byte of the guest has changed. |
| VexMachine.LaneExact | src/vexop.cc:1424-1551 | In every lane the emitted instruction sequence computes what its operator means in exact arithmetic. |
| VexMachine.PackLane | src/vexop.cc:1424-1551 | Lanes put together into a vector come out again unchanged. |
| VexMachine.ReadLane | src/genllvm.cc:156-164 | A lane of a register that is read is what is read at the place of the lane. |
| Wrapping.HighBits | src/vexop.cc:1296-1297 | The high bits of a wrapped number are those of the exact number. |
| Wrapping.OrDisjoint | src/vexop.cc:1047-1050 | Or-ing a number below 2^k with a multiple of 2^k adds them. |
| FragCaches.SortedOk | src/fragcache.cc:309-320 | Sorting keeps the fragments and puts distinct ones in ascending order. |
| FragCaches.LessFirst | src/fragcache.cc:304-307 | Of two fragments of one length the smaller one has the smaller byte where they first differ. |
| FragCaches.LessTotal | src/fragcache.cc:304-307 | Byte-wise comparison is a total order on fragments. |
| FragCaches.LessTrans | src/fragcache.cc:304-307 | ... and transitive. |
| FragCaches.AddedOnce | src/fragcache.cc:159-173 | In the answers to a run of additions a fragment is reported as new exactly the first time, and only if it was not there at the start. |
| FragCaches.FCFile.constructor | src/fragcache.cc:207-231 | Opens a sorted file with an empty buffer. |
| FragCaches.FCFile.ContainsFile | src/fragcache.cc:322-333 | Binary search of the sorted file is exact membership. |
| FragCaches.FCFile.ContainsBuffer | src/fragcache.cc:289-297 | The scan of the buffer is exact membership. |
| FragCaches.FCFile.Contains | src/fragcache.cc:335-340 | Membership in file and buffer together. |
| FragCaches.FCFile.Flush | src/fragcache.cc:272-287 | Moves the buffer into the file and sorts it: nothing is lost, nothing invented, nothing held twice. |
| FragCaches.FCFile.Add | src/fragcache.cc:342-354 | Adds one new fragment: to the buffer while that holds fewer than 1024, and otherwise everything goes to the file, which stays sorted. |
| FragCaches.FragCache.constructor | src/fragcache.cc:64-79 | Holds what the files on disk hold. |
| FragCaches.FragCache.GetFCFile | src/fragcache.cc:175-193 | The file of a length, opened at its first use; no contents change. |
| FragCaches.FragCache.AddFragment | src/fragcache.cc:159-173 | True exactly when the fragment was not held; afterwards it is held, and nothing else changes. |
| FragCaches.FragCache.AddFragments | src/fragcache.cc:159-173 | A run of calls of AddFragment gives those answers, and afterwards exactly the fragments of before and those of the run are held. |
| ExecChk.NeverMismatched | src/vexexecchk.cc:28-111 | If the translator is right and loops re-enter a superblock at its start, then over any run no mismatch is reported, the shadow is never ahead, and it equals the guest whenever it is not deferred. |
| ExecChk.RunExact | src/vexexecchk.cc:28-145 | A whole run of a right translation is reported fine and ends in step if and only if the native run leaves all recorded bounds in time, for native runs that repeat no state. |
| ExecChk.CatchUpExact | src/vexexecchk.cc:64-82 | When the guest has left its superblock, the shadow catches up with it if and only if the native run leaves the recorded bounds for the first time where the guest is; a mismatch is reported otherwise, unless a system call defers it. |
| ExecChk.StepInStep | src/vexexecchk.cc:28-111 | One superblock keeps the shadow in step and reports nothing. |
| ExecChk.SysCallExact | src/vexexecchk.cc:68-72 | A system call at the end of a superblock passes the assertion if and only if the shadow was not deferred before (or a system call was already noted). |
| ExecChk.HitSyscallExact | src/vexexecchk.cc:68-72 | Over any run the system-call flag is raised if and only if it was before, or some superblock that ends in a system call was left at once by a guest that was neither deferred nor out of step. |
| ExecChk.ForeignReentryMismatches | src/vexexecchk.cc:83-103 | A concrete right translation that leaves a superblock into its middle and is then reported as a mismatch. |
| ExecChk.LeavesOnce | src/vexexecchk.cc:64-66 | Where stepping through the bounds ends is determined. |
| ExecChk.VexExecChk.StepThroughBounds | src/vexexecchk.cc:64-66 | Single steps until the program counter is out of bounds. |
| ExecChk.VexExecChk.DoVexSB | src/vexexecchk.cc:28-145 | The deferral state machine, branch by branch, and the comparison at its end. |
| Signals.GenericOneToOne | src/qemu/translatedsignal.c:41-86 | The completed table of a target with the generic numbering: 32 stands for 64, 64 for 32, every other signal from 1 to 63 for itself; so it is one to one. |
| Signals.InverseSwapped | src/qemu/translatedsignal.c:316-319 | The table turned round exchanges 32 and 64 too, and nothing else. |
| Signals.TurnedRound | src/qemu/translatedsignal.c:316-319 | Turning a one-to-one table round gives its inverse on all signals. |
| Signals.Reached | src/qemu/translatedsignal.c:316-319 | A one-to-one table reaches every signal. |
| Signals.InverseOneToOne | src/qemu/translatedsignal.c:316-319 | A table that is undone by another is one to one. |
| Signals.SignalBack | src/qemu/translatedsignal.c:102-114 | Of two tables that undo each other, each brings back every signal number the other was given, numbers past the table included. |
| Signals.TranslatedBack | src/qemu/translatedsignal.c:135-177 | Translating a signal set and translating it back is the identity on sets of signals. |
| Signals.SignalTables.FillHostToTargetSignalTable | src/qemu/translatedsignal.c:41-86 | The explicit entries: 1 to 31 as they are, 64 for 32, and 32 for 64. |
| Signals.SignalTables.SetUp | src/qemu/translatedsignal.c:41-319 | Both tables once set up: 32 stands for 64, 64 for 32, and every other signal for itself. |
| Signals.SignalTables.SignalInit | src/qemu/translatedsignal.c:304-319 | Fills the gaps and turns the table round; the second table undoes the first if and only if that is one to one. |
| Signals.SignalTables.FillGaps | src/qemu/translatedsignal.c:312-315 | Missing entries stand for themselves. |
| Signals.SignalTables.TurnRound | src/qemu/translatedsignal.c:316-319 | Fills the inverse table entry by entry. |
| Signals.SignalTables.HostToTargetSignal | src/qemu/translatedsignal.c:102-107 | With the tables set up 32 gives 64, 64 gives 32, and every other number, past the table too, itself. |
| Signals.SignalTables.TargetToHostSignal | src/qemu/translatedsignal.c:109-114 | The same back. |
| Signals.SignalTables.HostToTargetSigset | src/qemu/translatedsignal.c:135-155 | The target set holds exactly the translations of the host signals: with the tables set up, 32 when 64 was in the host set, 64 when 32 was, and every other signal when it was itself. |
| Signals.SignalTables.TargetToHostSigset | src/qemu/translatedsignal.c:157-177 | The host set holds exactly the translations of the target signals, by the same numbers. |
| Signals.SignalTables.ThereAndBack | src/qemu/translatedsignal.c:135-177 | A host signal set returns unchanged from the way to the target and back, for 32- and 64-bit words. |
| Signals.SigSet.Empty | src/qemu/translatedsignal.c:116-119 | No signal is a member. |
| Signals.SigSet.Add | src/qemu/translatedsignal.c:121-126 | Adds one signal and keeps all others, whichever word its bit is in. |
| Signals.SigSet.IsMember | src/qemu/translatedsignal.c:128-133 | Exact membership. |

## Left out

Lowering:

- libVEX decoding and `LibVEX_Translate`, setjmp and longjmp, and the compilation of LLVM functions: foreign code; a translation is a function of the code bytes.
- `VexSB.load`, `loadJump` and `getEndAddr` (the replacement of a sysenter jump, the last IMark): the model starts from the loaded superblock, and a superblock knows where it ends.
- Constant folding in the LLVM builder: every operator is emitted as an instruction. The one place where the emitter looks at a constant, the literal guard of a helper call, is modelled; a guard that folds to one without being a literal counts as a real guard.
- Every operator and pure helper call is one instruction of the target; what the instruction sequences of the operators compute is proved apart from it, in `VexOps` and `VexLanes`, and `VexMachine` gives the two-operand lane operators that meaning.
- Floating-point operators, `Cls32x*`, interleaving and shuffling tables, and `NarrowBin*` (which asserts that it is untested).
- VexOps.ShiftAllExact: a shift by the lane width or more has no value in LLVM, and none in the model.
- Types finer than the width: the condition of an if-then-else may be of any type, and vectors of one width but different lanes are one type, so the casts between them are not modelled. That the value at the end has the function's return type is not required of a superblock; `ReturnTypes.ReturnsExact` says when it has.
- `DivModSExact`: the quotient of the least dividend by -1 does not fit even the full width and is undefined in LLVM; the model gives the mathematical quotient there.
- Load-linked and store-conditional (always linked), fake vsyscall reads, `MemLog`, and alignment hints of loads and stores.
- Memory faults inside a superblock: context and memory are total byte stores, and bytes never written read as zero.
- The `GSPTR` argument of helpers: a helper gets the guest state as a whole.
- Widths: an `I128` temporary and other types that the emitter has no type for.
- `getGuestTy` (the struct type of the context) and the names of instructions.

Caches and dispatch:

- Ownership of LLVM functions and modules (`delete`, `eraseFromParent`): the caches hold opaque values, so the double deletion in eviction is not visible.
- `JITEngine` and `JITObjectCache`, which are keyed by name and survive flushes: freshness stops at the superblock that is dispatched, not at the machine code behind it.
- CodeCaches.CodeCache.GetFPtr: the program asserts that there is a function and that no eviction victim is at address zero; these are its preconditions, and compiling ahead requires that nothing can be translated at address zero.
- CacheRuns.AgreementKept: compiling ahead is required to fit each time; for a fixed choice of victims the maps may agree even when it does not, for every choice they do only then (`AheadVictims.AgreesExact`).
- FreshRuns.NoStaleCode: for runs in which no request for a mapping with cached code is lost, and in which what is compiled ahead fits and is shielded; `FreshRuns.StepExact` says that a dispatch without the first or the last leaves something cached that is not up to date. Mappings are disjoint and at least a flush margin away from both ends of the address space, which `FreshRuns.FlushExact` shows the flush to need, and are changed only by dispatch and the fault handler; code outside all mappings is not covered, as the program does not protect it.
- Translation.RunMeans: for runs inside mappings and up to the next system call or trap, for superblocks without double-width compare-and-swap whose statements and helpers leave the exit byte alone.
- Mapping changes by system calls and stores by the kernel: a run of a superblock is its stores, its target, its kind of exit, and whether a system call it ends in exits. `doTrap` is empty in this program, so a trap goes on; a subclass that ends the guest there is not modelled.
- A range flush whose begin lies after its end: the map iterators it would need are undefined, the model treats the range as empty.
- Random choice of the eviction victim: an arbitrary function that picks a cached superblock.
- Tracing, statistics and core dumps.

Thunks and the rest:

- Special struct converters and `thunk_register_struct_direct`; pointers are copied as numbers, and `TYPE_PTR` converts nothing.
- Byte swapping is the identity, as in this program (`src/qemu/translatedutil.h`); host and target are little-endian.
- Thunks.Thunk.ThunkConvert: source and destination are different buffers, and in the structs that the type is made of only the last field may be a `TYPE_PTR` (after one the descriptor is out of step).
- Thunks.Thunk.RegisterStruct: offsets stay in the range of a 32-bit integer, and structs mention only structs registered before them, with the next free number, as the program numbers them.
- Words of flag tables and signal sets are sets of bit positions.
- FragCaches.FCFile.Flush: the file is a sequence of fragments, appended to and sorted; libc's sort is modelled by insertion sort and its binary search is written out. A file found on disk is taken to be sorted.
- `FCHash` and `FragCache::findLength`, which hash different lengths in lookup and insertion, so that exact lookup is not what they compute.
- ExecChk.VexExecChk.DoVexSB: the shadow is an abstract deterministic stepper; ptrace, the fixing up of known differences and signals are not modelled.
- ExecChk.NeverMismatched: for runs of superblocks whose own-bounds exits go to their start; `RunExact` is the exact condition. System calls beyond the flag and its assertion are not modelled.
- ExecChk.RunExact: for native runs that do not come back to an earlier state; in one that does the shadow can be equal to the guest at another time.
- Signals.SignalTables.SignalInit: the installation of host handlers is left out; the explicit entries are those of the generic numbering.
- ptrace checking variants (`vexexecfastchk`), checkpointing, ELF cores, system call emulation, SPIM, and register and system call tables: operating system plumbing.
