# APEX five-stage pipeline, in Dafny

This project models the pipeline engine of the APEX CPU simulator
(`cpu.c`). The simulator runs a decoded program through five stages:
fetch (F), decode/register-read (DRF), execute (EX), memory (MEM) and
writeback (WB). Each clock tick calls the stages in reverse order:
writeback, memory, execute, decode, fetch. Every stage then copies its
latch into the next stage's latch. A latch that is `busy` or `stalled` is
a bubble: its stage does nothing with it, but it is still copied
downstream.

The model has two layers.

- Module `Apex` (`apex.dfy`) is the value-level specification.
  - A `State` holds:
    - the program counter;
    - 32 registers and their readiness entries;
    - five latches;
    - 4000 words of data memory;
    - the zero flag, the clock and the completed-instruction counter;
    - the code memory.
  - Each stage is a function from `State` to `State`.
  - `Step`/`Tick` is one iteration of the run loop.
  - `Run` is the loop, bounded by fuel.
- Module `Simulator` (`simulator.dfy`) is the C program's own shape. Class
  `Cpu` keeps the registers, readiness entries, latches and data memory in
  arrays. Its methods update them in place. Each method is proved to leave
  the machine exactly where the matching `Apex` function says.
  `Cpu.Run` is the `while` loop of `APEX_cpu_run`.

Module `Isa` (`isa.dfy`) holds the opcodes and decoded instructions.

- Opcodes are compared as text in the C code. Exclusive-or is spelled
  `EX-OR` in decode, execute and writeback.
- `GetCodeIndex` is `get_code_index`, with C's truncating division.

Module `Bits` (`bits.dfy`) defines C's `&`, `|` and `^` on integers in
two's complement, and proves the bit-by-bit meaning of each.

Modules `StageProps` (`stages.dfy`) and `PipelineProps` (`pipeline.dfy`)
prove what each stage does per opcode, and what whole ticks and runs do.

Four scenario modules follow concrete programs tick by tick to
completion:

- `AddScenario`: MOVC, MOVC, ADD, HALT.
- `MulScenario`: the same program with MUL.
- `StoreLoadScenario`: a STORE followed by a LOAD.
- `StaleStoreScenario`: the STORE/LOAD program without the ADD in front.

The model follows the code literally, including these behaviours:

- **Readiness bits.** A register is ready when its readiness entry is 0.
  Decode marks a destination pending (1) only when it differs from both
  sources. Writeback marks it ready (0). `APEX_cpu_init` fills the entries
  byte-wise with 1, so every entry starts at 0x01010101, which means
  pending. As a result, a program whose first instruction is arithmetic
  stalls forever (`PipelineProps.ResetStallsForever`).
- **Stalled latches.** A stalled decode latch still goes on to execute,
  where it is a bubble. It is decoded again only after some writeback
  clears the stall flags.
- **ADD and SUB zero tests.**
  - ADD tests the live register file (`regs[rs1] == 0`, `regs[rs2] == 0`)
    to choose between adding the immediate and adding the snapshots.
  - SUB makes the same choice by testing the register numbers
    `rs1 == 0` and `rs2 == 0`.
- **MUL** spends one extra clock cycle inside the same execute call.
- **STORE and LOAD operands.**
  - STORE reads its operands in decode with no readiness check.
  - In memory, STORE writes the register file's current `rs1`, not the
    snapshot.
  - LOAD's second snapshot is `regs[imm]`.
  - `StaleStoreScenario` shows a STORE whose address register has not been
    written back yet.
- **Branches.** BZ, BNZ and JUMP change the program counter in execute.
  Nothing younger is flushed.
- **`EX_OR` in memory.** The memory stage tests for `EX_OR`, with an
  underscore. That test matches no opcode, and its branch is empty anyway.

The C code never checks array bounds, so an index outside an array is
undefined behaviour in the source. Here each stage has a `...Defined`
predicate, which the stage functions and methods require. `Step` returns
`None` when some stage of the tick would index out of range, and `Run`
then stops with reason `Undefined`.

## Model

| member | source | states |
|---|---|---|
| Isa.ParseToken | cpu.c:248-449 | Every opcode is selected again by its own text token (the `strcmp` dispatch of the stages, with "EX-OR" for exclusive-or). |
| Isa.UnderscoreXorIsNoOpcode | cpu.c:674 | The memory stage's "EX_OR" token selects no opcode. |
| Isa.GetCodeIndex | cpu.c:96-99 | For addresses at or above 4000, the index is the 4-byte word the address falls in. Below 4000 it is C's quotient, truncated toward zero. |
| Isa.CodeIndexOfAddress | cpu.c:96-99 | The address of slot k maps back to slot k. |
| Isa.CodeIndexBelowBase | cpu.c:96-99 | The three addresses just below 4000 also select slot 0. |
| Bits.BitAnd | cpu.c:542-544 | Bit i of AND is set exactly when bit i is set in both operands. |
| Bits.BitOr | cpu.c:546-548 | Bit i of OR is set exactly when bit i is set in either operand. |
| Bits.BitXor | cpu.c:550-552 | Bit i of EX-OR is set exactly when the two bits differ. |
| Bits.BitsDetermine | cpu.c:542-552 | Equal bits mean equal integers, so the three bit lemmas pin down AND, OR and EX-OR. |
| Apex.InitAsWritten | cpu.c:37-71 | PC is 4000. Registers and data memory are zero. Every readiness entry is nonzero (pending). Fetch is free and every later stage is busy. The zero flag, clock and counter are the given values, standing for whatever malloc left. |
| Apex.Init | cpu.c:31 | The initial state with the three fields that cpu.c:31 leaves unset at 0; the corrected side of the Findings row. |
| Apex.Writeback | cpu.c:713-804 | A bubble changes nothing. A live latch counts one completion. Only registers, readiness entries and the F/DRF stall flags may change besides the counter. |
| Apex.Memory | cpu.c:642-704 | The MEM latch moves to WB. No register, readiness entry, counter, flag or earlier latch changes, and a bubble changes nothing else. |
| Apex.Execute | cpu.c:458-632 | The EX latch moves to MEM with the same instruction. The clock rises by 1 exactly for a live MUL. Only ADD, SUB, MUL and BZ change the zero flag, and only BZ, BNZ and JUMP change the PC. |
| Apex.Decode | cpu.c:248-449 | The DRF latch moves to EX with the same instruction. Registers, memory, PC, flag and counters are unchanged. Fetch's latch changes at most in its stall flag, and a bubble changes nothing else. |
| Apex.Fetch | cpu.c:197-239 | A free fetch latch takes `code[get_code_index(pc)]` tagged with the PC, and the PC advances by 4. A bubble keeps the PC and its contents. Either way DRF receives a copy of F. |
| Apex.Step | cpu.c:846-851 | A defined tick advances the clock by 1, or by 2 with a live MUL in execute. It counts one completion exactly when writeback held a live latch. |
| Apex.Run | cpu.c:832-852 | The run stops as completed exactly when the counter equals the program length. The counter never decreases, and the clock advances at least as much as the counter. |
| Apex.RunTick | cpu.c:832-852 | A run that has not stopped is one tick followed by the rest of the run. |
| Apex.RunStopsBeforeUndefinedTick | cpu.c:846-850 | A run stops as undefined only in front of a tick that would index outside an array. |
| Simulator.Cpu.constructor | cpu.c:37-71 | The object's state is `Apex.InitAsWritten` of the code and the three uninitialised values, in fresh arrays. |
| Simulator.Cpu.Writeback | cpu.c:713-804 | In place, the new state is `Apex.Writeback` of the old one. |
| Simulator.Cpu.Memory | cpu.c:642-704 | In place, the new state is `Apex.Memory` of the old one. |
| Simulator.Cpu.ExecuteLatch | cpu.c:466-609 | The per-opcode work of execute yields the latch, PC, zero flag and clock of `Apex.ExecuteLatch`. |
| Simulator.Cpu.Execute | cpu.c:458-632 | In place, the new state is `Apex.Execute` of the old one. |
| Simulator.Cpu.Decode | cpu.c:248-449 | In place, the new state is `Apex.Decode` of the old one. |
| Simulator.Cpu.DecodeArith | cpu.c:266-410 | The arithmetic branches of decode leave the state `Apex.DecodeArith` computes. |
| Simulator.Cpu.Fetch | cpu.c:197-239 | In place, the new state is `Apex.Fetch` of the old one. |
| Simulator.Cpu.Tick | cpu.c:846-851 | The five stages in reverse order plus the clock increment leave the state `Apex.Tick` computes. |
| Simulator.Cpu.Stop | cpu.c:835-838 | When the loop exits here, the run's result is that reason and the current state. Otherwise another tick is defined and due. |
| Simulator.Cpu.Advance | cpu.c:834-851 | One pass of the loop body either exits with the reason and state of the run's result, or takes a tick and leaves a run one tick shorter with the same result. |
| Simulator.Cpu.Run | cpu.c:832-852 | The loop ends in the state and with the reason `Apex.Run` gives for the same fuel. |
| StageProps.DecodeArith | cpu.c:266-410 | The destination is marked pending exactly when it differs from both sources. With both sources ready, F and DRF are released and both snapshots are read. Otherwise both stall and EX receives the latch as a bubble. |
| StageProps.DecodeLoad | cpu.c:379-389 | LOAD marks its destination like arithmetic, never stalls, and snapshots `regs[rs1]` and `regs[imm]`. |
| StageProps.DecodeStore | cpu.c:253-258 | STORE snapshots both sources with no readiness check and no stall. |
| StageProps.DecodeHalt | cpu.c:422-426 | HALT stalls fetch and passes on unchanged. |
| StageProps.DecodeJump | cpu.c:416-430 | JUMP's decode reads only `rs1` into the latch and passes it on; no readiness bit or stall flag changes. |
| StageProps.DecodeNoRead | cpu.c:261-264 | MOVC, BZ, BNZ and unrecognised opcodes read no register in decode: the state changes only by the copy into execute. |
| StageProps.ExecuteResults | cpu.c:466-552 | MOVC, STORE, LOAD, AND, OR and EX-OR compute their buffer or address, with no effect on the flag, PC or clock. |
| StageProps.ExecuteAdd | cpu.c:483-510 | ADD chooses its sum by testing the live `regs[rs1]` and `regs[rs2]` for zero. The zero flag is 1 exactly when the result is 0. |
| StageProps.ExecuteSub | cpu.c:513-539 | SUB makes the same choice by testing the register numbers for zero. The zero flag is 1 exactly when the result is 0. |
| StageProps.ExecuteMul | cpu.c:555-580 | MUL yields the product of the snapshots, sets the zero flag exactly when it is 0, and costs one extra clock cycle. |
| StageProps.ExecuteBz | cpu.c:584-591 | BZ with the flag set jumps to its PC plus the immediate and clears the flag. Otherwise nothing happens, and nothing is flushed. |
| StageProps.ExecuteBnz | cpu.c:593-600 | BNZ with the flag clear jumps to its PC plus the immediate. Otherwise nothing happens. |
| StageProps.ExecuteJump | cpu.c:602-605 | JUMP sets the PC to the `rs1` snapshot plus the immediate. |
| StageProps.ExecuteNoWork | cpu.c:607-612 | HALT and unrecognised opcodes leave execute with nothing changed but the copy into memory. |
| StageProps.MemoryStore | cpu.c:648-651 | STORE writes the live `regs[rs1]` to its address and changes nothing else in memory. |
| StageProps.MemoryLoad | cpu.c:653-656 | LOAD reads its address into the buffer and writes no memory. |
| StageProps.MemoryPassThrough | cpu.c:658-684 | Every opcode but STORE and LOAD leaves memory with nothing changed but the copy into writeback: the latch and its buffer go on as they were, and data memory is untouched. |
| StageProps.StoreThenLoad | cpu.c:648-656 | A LOAD from the address a STORE wrote returns the stored value, given that the word is untouched since. `PipelineProps.StoreThenLoadLater` discharges that assumption. |
| StageProps.WritebackCommit | cpu.c:716-784 | A value-producing opcode commits its buffer to `rd`, marks `rd` ready, releases F and DRF and counts one. Any other live opcode only counts one. |
| PipelineProps.TickShift | cpu.c:846-850 | Each tick moves every instruction one stage on. DRF receives a copy of F. |
| PipelineProps.StallHolds | cpu.c:273-288 | An arithmetic instruction with a pending source holds F and DRF, whether it is new or already stalled. The PC stays unless a branch executing in the same tick redirects it to its target, and EX receives a stalled bubble. |
| PipelineProps.StallReleases | cpu.c:273-282 | Once the sources are ready after this tick's writeback, EX receives the instruction live with its operands, and fetch is released. |
| PipelineProps.BranchTarget | cpu.c:584-605 | A target exists exactly for a taken BZ, a taken BNZ, and JUMP. |
| PipelineProps.BranchRedirectsFetch | cpu.c:584-605 | After a taken branch, the PC is the target. If fetch was free, fetch instead holds the target's instruction and the PC is one word past it. |
| PipelineProps.BranchNotTaken | cpu.c:584-600 | A branch not taken leaves the PC to fetch: if fetch was free, it now holds the instruction at the old PC and the PC is one word past it. |
| PipelineProps.StoreThenLoadAcrossTicks | cpu.c:642-656 | When a LOAD follows a STORE to the same address, two ticks later the LOAD in writeback holds the value the STORE wrote. |
| PipelineProps.AluResultReachesWb | cpu.c:642-684 | A live latch other than STORE or LOAD in memory is, one tick later, the writeback latch exactly, and data memory is unchanged. |
| PipelineProps.AluResultCommits | cpu.c:713-784 | Two ticks after such a value-producing latch is in memory, its buffer is in register `rd` and no other register has changed. |
| PipelineProps.TickKeepsWord | cpu.c:642-656 | A tick whose memory stage holds no live STORE to an address leaves the word there unchanged. |
| PipelineProps.WordSurvives | cpu.c:642-656 | Over any number of ticks with no live STORE to an address in the memory stage, the word there keeps its value. |
| PipelineProps.StoreThenLoadLater | cpu.c:642-656 | A LOAD any number of ticks after a STORE to the same address, with no other STORE to it between, puts the value the STORE wrote into the writeback latch. |
| PipelineProps.RunMoreFuel | cpu.c:832-852 | More fuel does not change a completed run. |
| PipelineProps.StuckTick | cpu.c:273-288 | A machine stuck on a stalled first instruction stays stuck for another tick. |
| PipelineProps.StuckRun | cpu.c:832-852 | A stuck machine never completes. |
| PipelineProps.ResetTick | cpu.c:197-239 | From the reset machine, the first tick fetches `code[0]` into F and DRF, with the later stages still busy. |
| PipelineProps.FetchedTick | cpu.c:266-410 | The second tick stalls that instruction when it is arithmetic. |
| PipelineProps.FetchedRun | cpu.c:273-288 | Once an arithmetic first instruction has been fetched, no run completes. |
| PipelineProps.ResetRun | cpu.c:37-71 | From any reset machine whose first instruction is arithmetic, no run completes. |
| PipelineProps.ResetStallsForever | cpu.c:39 | Because every readiness entry starts pending, a program whose first instruction is arithmetic never completes, whatever the fuel. |
| PipelineProps.GarbageCounterSkipsProgram | cpu.c:31 | If the uninitialised counter equals the program length, the run completes at once with every register still 0. |
| PipelineProps.GarbageCounterNeverCompletes | cpu.c:835 | If it starts above the program length, no run ever completes. |
| PipelineProps.ZeroedRunCountsEveryInstruction | cpu.c:832-852 | From the zeroed initial state, a completed run has counted every instruction and taken at least that many cycles. |
| AddScenario.Completes | cpu.c:832-852 | MOVC R0,#3; MOVC R1,#4; ADD R2,R0,R1; HALT completes in 10 ticks with 4 instructions counted, R2 = 7 and data memory unchanged. |
| MulScenario.Completes | cpu.c:555-580 | The same program with MUL on 6 and 7 completes with R2 = 42, the clock at 11 and data memory unchanged. |
| StoreLoadScenario.Completes | cpu.c:642-656 | The STORE of R0 = 5 to address R1 + 0 = 10 is read back by the LOAD into R3. |
| StaleStoreScenario.Completes | cpu.c:253-258 | Without the ADD in front, STORE snapshots R1 before the MOVC writes it back. The value goes to word 0, and the LOAD reads word 0. |

## Left out

- The loader `create_code_memory`, called at cpu.c:44, is not modelled.
  The code memory is a parameter of `Init` and the constructor.
- `malloc` and `free` are not modelled: allocation failure and the `NULL`
  returns of `APEX_cpu_init`, and the two `free` calls of `APEX_cpu_stop`.
- Debug and display output is left out: `print_instruction`,
  `print_stage_content`, `display`, `Memorydisplay`, the `simulate`
  display switch and the final dumps. None of them changes the state.
- Integers are unbounded. C's 32-bit `int` overflow in sums, products and
  the counters is not modelled. `Bits.And`, `Bits.Or` and `Bits.Xor` are
  defined bit by bit on two's complement, as C's operators act on 32-bit
  values, but their results are not truncated to 32 bits.
- Apex.Init: starts the zero flag, the clock and the counter at 0, which
  cpu.c never does; `Apex.InitAsWritten` and the constructor take the
  three values as parameters instead (see Findings).
- Apex.Run: the source loops without bound. The model runs for at most
  `fuel` ticks and reports `OutOfFuel` when it stops early.
  `PipelineProps.RunMoreFuel` shows that the bound never changes a
  completed run.
- The C code does not check its array indices. The model does not model
  an out-of-range access. Instead it requires each stage to be defined,
  and `Run` stops with `Undefined` before such a tick.
- Apex.Latch: the source's textual opcode is an `Opcode` value.
  `Isa.ParseOpcode` relates the two, so unrecognised text and the empty
  string of a zeroed latch are both `Unknown`.

## Findings

| source | as written | input that shows it | evidently intended | confidence | as-written member | corrected member |
|---|---|---|---|---|---|---|
| cpu.c:31 | `APEX_cpu_init` allocates the machine with `malloc` and never sets `ins_completed`, `clock` or `zeroflag`. The run loop's only exit compares `ins_completed` with the program length. | Any program, when the allocation happens to hold `ins_completed == code_memory_size`: the loop exits before the first tick and no instruction runs. With a value above the length, the loop never exits. | The three fields start at 0. | not executed; the effect depends on what the allocator returns | PipelineProps.GarbageCounterSkipsProgram | PipelineProps.ZeroedRunCountsEveryInstruction |
