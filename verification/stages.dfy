/** What each stage does to the machine, one opcode at a time, stated
    against the stage functions of module `Apex`. */
module StageProps {
  import opened Isa
  import opened Apex
  import Bits

  // ------------------------------------------------------------------- decode

  /** Decode of ADD, SUB, AND, OR, EX-OR or MUL. The destination is marked
      pending exactly when it differs from both sources. With both sources
      ready, fetch and decode are released and both operands are read.
      Otherwise fetch and decode stall, the snapshots keep their old values,
      and the stalled latch goes on to execute as a bubble. */
  lemma DecodeArith(s: State)
    requires WellFormed(s) && DecodeDefined(s)
    requires !s.stage[DRF].IsBubble() && IsArith(s.stage[DRF].opcode)
    ensures var l, r := s.stage[DRF], Decode(s);
      (if l.rd != l.rs1 && l.rd != l.rs2 then r.regsValid == s.regsValid[l.rd := 1]
       else r.regsValid == s.regsValid) &&
      (if s.regsValid[l.rs1] == 0 && s.regsValid[l.rs2] == 0 then
         !r.stage[F].stalled &&
         r.stage[EX] == l.(rs1Value := s.regs[l.rs1], rs2Value := s.regs[l.rs2])
       else
         r.stage[F].stalled && r.stage[EX] == l.(stalled := true) && r.stage[EX].IsBubble())
  {
  }

  /** Decode of LOAD marks its destination like the arithmetic opcodes,
      never stalls, and reads `rs1` and the register numbered by the
      immediate. */
  lemma DecodeLoad(s: State)
    requires WellFormed(s) && DecodeDefined(s)
    requires !s.stage[DRF].IsBubble() && s.stage[DRF].opcode == Load
    ensures var l, r := s.stage[DRF], Decode(s);
      (if l.rd != l.rs1 && l.rd != l.rs2 then r.regsValid == s.regsValid[l.rd := 1]
       else r.regsValid == s.regsValid) &&
      r.stage[F] == s.stage[F] &&
      r.stage[EX] == l.(rs1Value := s.regs[l.rs1], rs2Value := s.regs[l.imm])
  {
  }

  /** Decode of STORE reads both sources whatever their readiness bits say
      and touches no readiness bit and no stall flag. */
  lemma DecodeStore(s: State)
    requires WellFormed(s) && DecodeDefined(s)
    requires !s.stage[DRF].IsBubble() && s.stage[DRF].opcode == Store
    ensures var l, r := s.stage[DRF], Decode(s);
      r.regsValid == s.regsValid && r.stage[F] == s.stage[F] &&
      r.stage[EX] == l.(rs1Value := s.regs[l.rs1], rs2Value := s.regs[l.rs2])
  {
  }

  /** Decode of HALT stops fetching and passes HALT itself on unchanged. */
  lemma DecodeHalt(s: State)
    requires WellFormed(s) && DecodeDefined(s)
    requires !s.stage[DRF].IsBubble() && s.stage[DRF].opcode == Halt
    ensures var r := Decode(s);
      r.stage[F] == s.stage[F].(stalled := true) && r.stage[EX] == s.stage[DRF] &&
      r.regsValid == s.regsValid
  {
  }

  /** Decode of JUMP reads only `rs1` into the latch: no readiness bit and
      no stall flag changes. */
  lemma DecodeJump(s: State)
    requires WellFormed(s) && DecodeDefined(s)
    requires !s.stage[DRF].IsBubble() && s.stage[DRF].opcode == Jump
    ensures var l, r := s.stage[DRF], Decode(s);
      r == s.(stage := s.stage[DRF := l.(rs1Value := s.regs[l.rs1])][EX := l.(rs1Value := s.regs[l.rs1])])
  {
  }

  /** Decode of MOVC, BZ, BNZ or an unrecognised opcode reads no register
      and only passes the latch on to execute. */
  lemma DecodeNoRead(s: State)
    requires WellFormed(s) && DecodeDefined(s)
    requires !s.stage[DRF].IsBubble() && s.stage[DRF].opcode in {Movc, Bz, Bnz, Unknown}
    ensures Decode(s) == s.(stage := s.stage[EX := s.stage[DRF]])
  {
  }

  // ------------------------------------------------------------------ execute

  /** Results computed in execute from the decode-time snapshots, with no
      effect on the zero flag or the program counter. */
  lemma ExecuteResults(s: State)
    requires WellFormed(s) && ExecuteDefined(s)
    requires !s.stage[EX].IsBubble() && s.stage[EX].opcode in {Movc, Store, Load, And, Or, ExOr}
    ensures var l, r := s.stage[EX], Execute(s);
      r.zeroflag == s.zeroflag && r.pc == s.pc && r.clock == s.clock &&
      r.stage[MEM] == match l.opcode
        case Movc => l.(buffer := l.imm)
        case Store => l.(memAddress := l.rs2Value + l.imm)
        case Load => l.(memAddress := l.rs1Value + l.imm)
        case And => l.(buffer := Bits.And(l.rs1Value, l.rs2Value))
        case Or => l.(buffer := Bits.Or(l.rs1Value, l.rs2Value))
        case _ => l.(buffer := Bits.Xor(l.rs1Value, l.rs2Value))
  {
  }

  /** ADD: when the live register `rs1` holds 0 the result is the `rs2`
      snapshot plus the immediate; else when the live `rs2` holds 0 it is
      the `rs1` snapshot plus the immediate; else the sum of the snapshots.
      The zero flag is set exactly when the result is 0. */
  lemma ExecuteAdd(s: State)
    requires WellFormed(s) && ExecuteDefined(s)
    requires !s.stage[EX].IsBubble() && s.stage[EX].opcode == Add
    ensures var l, r := s.stage[EX], Execute(s);
      r.stage[MEM] == l.(buffer := r.stage[MEM].buffer) &&
      (s.regs[l.rs1] == 0 ==> r.stage[MEM].buffer == l.rs2Value + l.imm) &&
      (s.regs[l.rs1] != 0 && s.regs[l.rs2] == 0 ==> r.stage[MEM].buffer == l.rs1Value + l.imm) &&
      (s.regs[l.rs1] != 0 && s.regs[l.rs2] != 0 ==> r.stage[MEM].buffer == l.rs1Value + l.rs2Value) &&
      (r.zeroflag == 1 <==> r.stage[MEM].buffer == 0) && (r.zeroflag == 0 || r.zeroflag == 1) &&
      r.pc == s.pc && r.clock == s.clock
  {
  }

  /** SUB: the same selection as ADD, but the tests are on the register
      numbers `rs1 == 0` and `rs2 == 0`, and the immediate or the `rs2`
      snapshot is subtracted. */
  lemma ExecuteSub(s: State)
    requires WellFormed(s) && ExecuteDefined(s)
    requires !s.stage[EX].IsBubble() && s.stage[EX].opcode == Sub
    ensures var l, r := s.stage[EX], Execute(s);
      r.stage[MEM] == l.(buffer := r.stage[MEM].buffer) &&
      (l.rs1 == 0 ==> r.stage[MEM].buffer == l.rs2Value - l.imm) &&
      (l.rs1 != 0 && l.rs2 == 0 ==> r.stage[MEM].buffer == l.rs1Value - l.imm) &&
      (l.rs1 != 0 && l.rs2 != 0 ==> r.stage[MEM].buffer == l.rs1Value - l.rs2Value) &&
      (r.zeroflag == 1 <==> r.stage[MEM].buffer == 0) && (r.zeroflag == 0 || r.zeroflag == 1) &&
      r.pc == s.pc && r.clock == s.clock
  {
  }

  /** MUL: the product of the snapshots, the zero flag set exactly when it
      is 0, and one extra clock cycle within the same call. */
  lemma ExecuteMul(s: State)
    requires WellFormed(s) && ExecuteDefined(s)
    requires !s.stage[EX].IsBubble() && s.stage[EX].opcode == Mul
    ensures var l, r := s.stage[EX], Execute(s);
      r.stage[MEM] == l.(buffer := l.rs1Value * l.rs2Value) &&
      (r.zeroflag == 1 <==> l.rs1Value * l.rs2Value == 0) && (r.zeroflag == 0 || r.zeroflag == 1) &&
      r.clock == s.clock + 1 && r.pc == s.pc
  {
  }

  /** BZ with the zero flag set jumps to its own address plus the immediate
      and clears the flag; otherwise nothing happens. Nothing else changes
      either way: the younger instructions already in fetch and decode are
      not squashed. */
  lemma ExecuteBz(s: State)
    requires WellFormed(s) && ExecuteDefined(s)
    requires !s.stage[EX].IsBubble() && s.stage[EX].opcode == Bz
    ensures var l := s.stage[EX];
      Execute(s) == if s.zeroflag == 1
        then s.(pc := l.pc + l.imm, zeroflag := 0, stage := s.stage[MEM := l])
        else s.(stage := s.stage[MEM := l])
  {
  }

  /** BNZ with the zero flag clear jumps to its own address plus the
      immediate and leaves the flag alone; otherwise nothing happens. */
  lemma ExecuteBnz(s: State)
    requires WellFormed(s) && ExecuteDefined(s)
    requires !s.stage[EX].IsBubble() && s.stage[EX].opcode == Bnz
    ensures var l := s.stage[EX];
      Execute(s) == if s.zeroflag == 0
        then s.(pc := l.pc + l.imm, stage := s.stage[MEM := l])
        else s.(stage := s.stage[MEM := l])
  {
  }

  /** JUMP goes to the `rs1` snapshot plus the immediate, always. */
  lemma ExecuteJump(s: State)
    requires WellFormed(s) && ExecuteDefined(s)
    requires !s.stage[EX].IsBubble() && s.stage[EX].opcode == Jump
    ensures var l := s.stage[EX];
      Execute(s) == s.(pc := l.rs1Value + l.imm, stage := s.stage[MEM := l])
  {
  }

  /** Execute of HALT or an unrecognised opcode does nothing but pass the
      latch on to memory. */
  lemma ExecuteNoWork(s: State)
    requires WellFormed(s) && ExecuteDefined(s)
    requires !s.stage[EX].IsBubble() && s.stage[EX].opcode in {Halt, Unknown}
    ensures Execute(s) == s.(stage := s.stage[MEM := s.stage[EX]])
  {
  }

  // ------------------------------------------------------------------- memory

  /** STORE writes the register file's current `rs1` (not the decode-time
      snapshot) to its address. */
  lemma MemoryStore(s: State)
    requires WellFormed(s) && MemoryDefined(s)
    requires !s.stage[MEM].IsBubble() && s.stage[MEM].opcode == Store
    ensures var l, r := s.stage[MEM], Memory(s);
      r.dataMemory == s.dataMemory[l.memAddress := s.regs[l.rs1]] && r.stage[WB] == l
  {
  }

  /** LOAD reads its address into the result buffer and writes nothing. */
  lemma MemoryLoad(s: State)
    requires WellFormed(s) && MemoryDefined(s)
    requires !s.stage[MEM].IsBubble() && s.stage[MEM].opcode == Load
    ensures var l, r := s.stage[MEM], Memory(s);
      r.dataMemory == s.dataMemory && r.stage[WB] == l.(buffer := s.dataMemory[l.memAddress])
  {
  }

  /** Every opcode but STORE and LOAD passes through the memory stage
      untouched: the latch, result buffer included, moves on to writeback
      and data memory is left alone. */
  lemma MemoryPassThrough(s: State)
    requires WellFormed(s) && MemoryDefined(s)
    requires !s.stage[MEM].IsBubble() && s.stage[MEM].opcode !in {Store, Load}
    ensures Memory(s) == s.(stage := s.stage[WB := s.stage[MEM]])
  {
  }

  /** A LOAD that reaches the memory stage after a STORE to the same
      address, with no store to that address in between, reads the value
      the STORE wrote. */
  lemma StoreThenLoad(s: State, t: State)
    requires WellFormed(s) && MemoryDefined(s) && WellFormed(t) && MemoryDefined(t)
    requires !s.stage[MEM].IsBubble() && s.stage[MEM].opcode == Store
    requires !t.stage[MEM].IsBubble() && t.stage[MEM].opcode == Load
    requires t.stage[MEM].memAddress == s.stage[MEM].memAddress
    requires t.dataMemory[t.stage[MEM].memAddress] == Memory(s).dataMemory[s.stage[MEM].memAddress]
    ensures Memory(t).stage[WB].buffer == s.regs[s.stage[MEM].rs1]
  {
  }

  // ---------------------------------------------------------------- writeback

  /** Writeback of a value-producing opcode commits the buffer to `rd`,
      marks `rd` ready, releases fetch and decode and counts one
      completion. Any other live opcode only counts one completion. */
  lemma WritebackCommit(s: State)
    requires WellFormed(s) && WritebackDefined(s)
    requires !s.stage[WB].IsBubble()
    ensures var l, r := s.stage[WB], Writeback(s);
      if WritesRegister(l.opcode) then
        r.regs == s.regs[l.rd := l.buffer] && r.regsValid == s.regsValid[l.rd := 0] &&
        !r.stage[F].stalled && !r.stage[DRF].stalled &&
        r.insCompleted == s.insCompleted + 1
      else
        r == s.(insCompleted := s.insCompleted + 1)
  {
  }
}
