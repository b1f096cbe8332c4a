/** The APEX CPU as the C program holds it: one object whose arrays and
    fields every stage updates in place. Each method is proved to leave
    the machine in exactly the state the corresponding function of module
    `Apex` computes from the state before the call. */
module Simulator {
  import opened Isa
  import opened Apex
  import Bits

  class Cpu {
    var pc: int
    const regs: array<int>
    const regsValid: array<int>
    const stage: array<Latch>
    const dataMemory: array<int>
    var zeroflag: int
    var clock: int
    var insCompleted: int
    const code: seq<Instruction>

    ghost predicate Valid()
      reads this
    {
      regs.Length == NumRegs && regsValid.Length == NumRegs &&
      stage.Length == NumStages && dataMemory.Length == DataMemorySize &&
      regs != regsValid && regs != dataMemory && regsValid != dataMemory
    }

    /** The machine state as a value. */
    function State(): Apex.State
      reads this, regs, regsValid, stage, dataMemory
    {
      Apex.State(pc, regs[..], regsValid[..], stage[..], dataMemory[..],
                 zeroflag, clock, insCompleted, code)
    }

    /** `APEX_cpu_init` with the code memory already loaded. The zero flag,
        the clock and the completed-instruction counter are whatever the
        allocation left there: the caller supplies them. */
    constructor (code: seq<Instruction>, zeroflag: int, clock: int, insCompleted: int)
      ensures Valid() && State() == Apex.InitAsWritten(code, zeroflag, clock, insCompleted)
      ensures fresh(regs) && fresh(regsValid) && fresh(stage) && fresh(dataMemory)
    {
      var latches := new Latch[NumStages](_ => EmptyLatch);
      // Every stage but fetch starts busy, so the pipeline fills from empty.
      for i := 1 to NumStages
        invariant latches[0] == EmptyLatch
        invariant forall k :: 1 <= k < i ==> latches[k] == EmptyLatch.(busy := true)
        invariant forall k :: i <= k < NumStages ==> latches[k] == EmptyLatch
      {
        latches[i] := latches[i].(busy := true);
      }
      assert latches[..] == [EmptyLatch] + seq(NumStages - 1, _ => EmptyLatch.(busy := true));
      var r := new int[NumRegs](_ => 0);
      var valid := new int[NumRegs](_ => ResetPending);
      var memory := new int[DataMemorySize](_ => 0);
      assert r[..] == seq(NumRegs, _ => 0);
      assert valid[..] == seq(NumRegs, _ => ResetPending);
      assert memory[..] == seq(DataMemorySize, _ => 0);
      pc := CodeBase;
      regs, regsValid, stage, dataMemory := r, valid, latches, memory;
      this.zeroflag, this.clock, this.insCompleted := zeroflag, clock, insCompleted;
      this.code := code;
    }

    method Writeback()
      requires Valid() && WritebackDefined(State())
      modifies this`insCompleted, regs, regsValid, stage
      ensures Valid() && State() == Apex.Writeback(old(State()))
    {
      var l := stage[WB];
      if !l.busy && !l.stalled {
        // The source repeats this block once per committing opcode.
        if WritesRegister(l.opcode) {
          regs[l.rd] := l.buffer;
          regsValid[l.rd] := 0;
          stage[DRF] := stage[DRF].(stalled := false);
          stage[F] := stage[F].(stalled := false);
        }
        insCompleted := insCompleted + 1;
      }
    }

    method Memory()
      requires Valid() && MemoryDefined(State())
      modifies dataMemory, stage
      ensures Valid() && State() == Apex.Memory(old(State()))
    {
      var l := stage[MEM];
      if !l.busy && !l.stalled {
        match l.opcode
        case Store =>
          dataMemory[l.memAddress] := regs[l.rs1];
        case Load =>
          stage[MEM] := l.(buffer := dataMemory[l.memAddress]);
        case _ =>
      }
      stage[WB] := stage[MEM];
    }

    /** The per-opcode work of `execute` on the live latch `l`: the updated
        latch, with the program counter, zero flag and clock updated in
        place. */
    method ExecuteLatch(l: Latch) returns (l': Latch)
      requires Valid() && (l.opcode == Add ==> IsReg(l.rs1) && (regs[l.rs1] == 0 || IsReg(l.rs2)))
      modifies this`pc, this`zeroflag, this`clock
      ensures (l', pc, zeroflag, clock) == Apex.ExecuteLatch(old(State()), l)
    {
      l' := l;
      match l.opcode
      case Movc =>
        l' := l.(buffer := l.imm);
      case Store =>
        l' := l.(memAddress := l.rs2Value + l.imm);
      case Load =>
        l' := l.(memAddress := l.rs1Value + l.imm);
      case Add =>
        var v;
        if regs[l.rs1] == 0 {
          v := l.rs2Value + l.imm;
        } else if regs[l.rs2] == 0 {
          v := l.rs1Value + l.imm;
        } else {
          v := l.rs1Value + l.rs2Value;
        }
        l' := l.(buffer := v);
        zeroflag := if v == 0 then 1 else 0;
      case Sub =>
        var v;
        if l.rs1 == 0 {
          v := l.rs2Value - l.imm;
        } else if l.rs2 == 0 {
          v := l.rs1Value - l.imm;
        } else {
          v := l.rs1Value - l.rs2Value;
        }
        l' := l.(buffer := v);
        zeroflag := if v == 0 then 1 else 0;
      case And =>
        l' := l.(buffer := Bits.And(l.rs1Value, l.rs2Value));
      case Or =>
        l' := l.(buffer := Bits.Or(l.rs1Value, l.rs2Value));
      case ExOr =>
        l' := l.(buffer := Bits.Xor(l.rs1Value, l.rs2Value));
      case Mul =>
        // The source's local stallFlag always takes both branches in one call.
        clock := clock + 1;
        var v := l.rs1Value * l.rs2Value;
        l' := l.(buffer := v, stalled := false);
        zeroflag := if v == 0 then 1 else 0;
      case Bz =>
        if zeroflag == 1 {
          pc := l.pc + l.imm;
          zeroflag := 0;
        }
      case Bnz =>
        if zeroflag == 0 {
          pc := l.pc + l.imm;
        }
      case Jump =>
        pc := l.rs1Value + l.imm;
      case Halt =>
      case Unknown =>
    }

    method Execute()
      requires Valid() && ExecuteDefined(State())
      modifies this`pc, this`zeroflag, this`clock, stage
      ensures Valid() && State() == Apex.Execute(old(State()))
    {
      var l := stage[EX];
      if !l.busy && !l.stalled {
        var l' := ExecuteLatch(l);
        stage[EX] := l';
      }
      stage[MEM] := stage[EX];
    }

    method Decode()
      requires Valid() && DecodeDefined(State())
      modifies regsValid, stage
      ensures Valid() && State() == Apex.Decode(old(State()))
    {
      var l := stage[DRF];
      if !l.busy && !l.stalled {
        match l.opcode
        case Store =>
          stage[DRF] := l.(rs1Value := regs[l.rs1], rs2Value := regs[l.rs2]);
        case Load =>
          if l.rd != l.rs1 && l.rd != l.rs2 {
            regsValid[l.rd] := 1;
          }
          stage[DRF] := l.(rs1Value := regs[l.rs1], rs2Value := regs[l.imm]);
        case Jump =>
          stage[DRF] := l.(rs1Value := regs[l.rs1]);
        case Halt =>
          stage[F] := stage[F].(stalled := true);
        case Add | Sub | And | Or | ExOr | Mul =>
          DecodeArith(l);
        case Movc | Bz | Bnz | Unknown =>
      }
      stage[EX] := stage[DRF];
    }

    /** Decode of ADD, SUB, AND, OR, EX-OR and MUL, before the latch moves on. */
    method DecodeArith(l: Latch)
      requires Valid() && MarkDefined(l) && IsReg(l.rs1) && (regsValid[l.rs1] == 0 ==> IsReg(l.rs2))
      modifies regsValid, stage
      ensures Valid() && State() == Apex.DecodeArith(old(State()), l)
    {
      if l.rd != l.rs1 && l.rd != l.rs2 {
        regsValid[l.rd] := 1;
      }
      if regsValid[l.rs1] == 0 && regsValid[l.rs2] == 0 {
        stage[F] := stage[F].(stalled := false);
        stage[DRF] := l.(stalled := false, rs1Value := regs[l.rs1], rs2Value := regs[l.rs2]);
      } else {
        stage[F] := stage[F].(stalled := true);
        stage[DRF] := l.(stalled := true);
      }
    }

    method Fetch()
      requires Valid() && FetchDefined(State())
      modifies this`pc, stage
      ensures Valid() && State() == Apex.Fetch(old(State()))
    {
      var l := stage[F];
      if !l.busy && !l.stalled {
        var ins := code[GetCodeIndex(pc)];
        stage[F] := l.(pc := pc, opcode := ins.opcode, rd := ins.rd, rs1 := ins.rs1,
                       rs2 := ins.rs2, imm := ins.imm);
        pc := pc + WordSize;
      }
      stage[DRF] := stage[F];
    }

    /** One iteration of the loop in `APEX_cpu_run`. */
    method Tick()
      requires Valid() && TickDefined(State())
      modifies this, regs, regsValid, stage, dataMemory
      ensures Valid() && State() == Apex.Tick(old(State()))
    {
      Writeback();
      Memory();
      Execute();
      Decode();
      Fetch();
      clock := clock + 1;
    }

    /** The run loop's exit test: the run stops here, and why, or it takes
        another tick. */
    method Stop(left: nat) returns (r: Option<StopReason>)
      requires Valid()
      ensures r.Some? ==> Apex.Run(State(), left) == RunResult(r.value, State())
      ensures r.None? ==> insCompleted != |code| && left > 0 && TickDefined(State())
    {
      if insCompleted == |code| {
        return Some(Completed);
      }
      if left == 0 {
        return Some(OutOfFuel);
      }
      if !TickDefined(State()) {
        return Some(Undefined);
      }
      return None;
    }

    /** One pass through the body of the loop, for a run that is to end in
        `target`: either the loop exits here, for the reason and in the
        state of `target`, or one tick is taken and the rest of the run,
        one tick shorter, still ends in `target`. */
    method Advance(left: nat, ghost target: RunResult) returns (stop: Option<StopReason>)
      requires Valid() && Apex.Run(State(), left) == target
      modifies this, regs, regsValid, stage, dataMemory
      ensures Valid()
      ensures stop.Some? ==> target == RunResult(stop.value, State())
      ensures stop.None? ==> left > 0 && Apex.Run(State(), left - 1) == target
    {
      stop := Stop(left);
      if stop.None? {
        RunTick(State(), left);
        Tick();
      }
    }

    method Run(fuel: nat) returns (reason: StopReason)
      requires Valid()
      modifies this, regs, regsValid, stage, dataMemory
      ensures Valid() && Apex.Run(old(State()), fuel) == RunResult(reason, State())
    {
      ghost var target := Apex.Run(State(), fuel);
      var left: nat := fuel;
      while true
        invariant Valid() && left <= fuel
        invariant Apex.Run(State(), left) == target
        decreases left
      {
        var stop := Advance(left, target);
        if stop.Some? {
          return stop.value;
        }
        left := left - 1;
      }
    }
  }
}
