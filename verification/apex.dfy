/** The APEX five-stage pipeline as a state machine on values: the machine
    state, one function per stage (writeback, memory, execute, decode,
    fetch), one clock tick, and the run loop with a fuel bound.

    Each stage function does what its C counterpart does to the shared
    machine struct: when its latch is live it does the per-opcode work,
    updating its own latch in place, and then it copies its latch into the
    next stage's latch (writeback copies nothing). When its latch is busy
    or stalled it only copies the latch downstream.

    The C code indexes its arrays without bounds checks. Each stage
    therefore has a `...Defined` predicate saying that every index it will
    use is in range. The stage function requires it, and `Run` stops with
    `Undefined` instead of taking a tick that would index out of range. */
module Apex {
  import opened Isa
  import Bits

  /** Stage indices, in pipeline order. */
  const F: nat := 0
  const DRF: nat := 1
  const EX: nat := 2
  const MEM: nat := 3
  const WB: nat := 4
  const NumStages: nat := 5

  const NumRegs: nat := 32
  const DataMemorySize: nat := 4000

  /** `memset(regs_valid, 1, ...)` sets every byte of each 32-bit entry to
      1, so each readiness entry starts as 0x01010101: nonzero, that is,
      pending. A register is ready only when its entry is 0. */
  const ResetPending: int := 0x0101_0101

  /** One stage latch. */
  datatype Latch = Latch(
    pc: int,
    opcode: Opcode,
    rd: int,
    rs1: int,
    rs2: int,
    imm: int,
    rs1Value: int,
    rs2Value: int,
    buffer: int,
    memAddress: int,
    busy: bool,
    stalled: bool)
  {
    /** A busy or stalled latch is a bubble: its stage does no work. */
    predicate IsBubble() {
      busy || stalled
    }

    /** The instruction the latch carries. */
    function Instr(): Instruction {
      Instruction(opcode, rd, rs1, rs2, imm)
    }
  }

  /** A latch after `memset(stage, 0, ...)`; its empty opcode matches nothing. */
  const EmptyLatch: Latch := Latch(0, Unknown, 0, 0, 0, 0, 0, 0, 0, 0, false, false)

  /** The whole machine. `code` is the read-only code memory; its length
      is `code_memory_size`. */
  datatype State = State(
    pc: int,
    regs: seq<int>,
    regsValid: seq<int>,
    stage: seq<Latch>,
    dataMemory: seq<int>,
    zeroflag: int,
    clock: int,
    insCompleted: int,
    code: seq<Instruction>)

  predicate WellFormed(s: State) {
    |s.regs| == NumRegs && |s.regsValid| == NumRegs &&
    |s.stage| == NumStages && |s.dataMemory| == DataMemorySize
  }

  predicate IsReg(i: int) {
    0 <= i < NumRegs
  }

  predicate IsDataAddress(a: int) {
    0 <= a < DataMemorySize
  }

  /** The state `APEX_cpu_init` builds. `malloc` leaves the zero flag, the
      clock and the completed-instruction counter uninitialised; here they
      are parameters. */
  function InitAsWritten(code: seq<Instruction>, zeroflag: int, clock: int, insCompleted: int): (s: State)
    ensures WellFormed(s) && s.code == code && s.pc == CodeBase
    ensures s.zeroflag == zeroflag && s.clock == clock && s.insCompleted == insCompleted
    ensures forall i :: 0 <= i < NumRegs ==> s.regs[i] == 0 && s.regsValid[i] != 0
    ensures forall a :: 0 <= a < DataMemorySize ==> s.dataMemory[a] == 0
    ensures !s.stage[F].IsBubble() && forall k :: F < k < NumStages ==> s.stage[k].busy
  {
    State(CodeBase, seq(NumRegs, _ => 0), seq(NumRegs, _ => ResetPending),
          [EmptyLatch] + seq(NumStages - 1, _ => EmptyLatch.(busy := true)),
          seq(DataMemorySize, _ => 0), zeroflag, clock, insCompleted, code)
  }

  /** The initial state with the three uninitialised fields set to 0, which
      is what the run loop's completion test relies on. */
  function Init(code: seq<Instruction>): (s: State)
    ensures WellFormed(s) && s.code == code
    ensures s.insCompleted == 0 && s.clock == 0 && s.zeroflag == 0
  {
    InitAsWritten(code, 0, 0, 0)
  }

  // ---------------------------------------------------------------- writeback

  predicate WritebackDefined(s: State)
    requires WellFormed(s)
  {
    var l := s.stage[WB];
    l.IsBubble() || !WritesRegister(l.opcode) || IsReg(l.rd)
  }

  /** `writeback`: a live latch whose opcode produces a value commits it to
      `rd`, marks `rd` ready and releases the stall on the fetch and decode
      latches; every live latch is counted as completed. */
  function Writeback(s: State): (r: State)
    requires WellFormed(s) && WritebackDefined(s)
    ensures WellFormed(r)
    ensures s.stage[WB].IsBubble() ==> r == s
    ensures !s.stage[WB].IsBubble() ==> r.insCompleted == s.insCompleted + 1
    ensures r.pc == s.pc && r.dataMemory == s.dataMemory && r.zeroflag == s.zeroflag && r.clock == s.clock &&
            r.code == s.code
    ensures r.stage[EX] == s.stage[EX] && r.stage[MEM] == s.stage[MEM] && r.stage[WB] == s.stage[WB]
    ensures r.stage[F] == s.stage[F].(stalled := r.stage[F].stalled)
    ensures r.stage[DRF] == s.stage[DRF].(stalled := r.stage[DRF].stalled)
  {
    var l := s.stage[WB];
    if l.IsBubble() then s
    else if WritesRegister(l.opcode) then
      s.(regs := s.regs[l.rd := l.buffer],
         regsValid := s.regsValid[l.rd := 0],
         stage := s.stage[DRF := s.stage[DRF].(stalled := false)][F := s.stage[F].(stalled := false)],
         insCompleted := s.insCompleted + 1)
    else
      s.(insCompleted := s.insCompleted + 1)
  }

  // ------------------------------------------------------------------- memory

  predicate MemoryDefined(s: State)
    requires WellFormed(s)
  {
    var l := s.stage[MEM];
    l.IsBubble() ||
    match l.opcode
    case Store => IsDataAddress(l.memAddress) && IsReg(l.rs1)
    case Load => IsDataAddress(l.memAddress)
    case _ => true
  }

  /** `memory`: STORE writes the register file's current value of `rs1`
      to its computed address; LOAD reads its computed address into the
      result buffer. Then the latch moves on to writeback. */
  function Memory(s: State): (r: State)
    requires WellFormed(s) && MemoryDefined(s)
    ensures WellFormed(r)
    ensures r.stage[WB] == r.stage[MEM]
    ensures r.stage[F] == s.stage[F] && r.stage[DRF] == s.stage[DRF] && r.stage[EX] == s.stage[EX]
    ensures r.pc == s.pc && r.regs == s.regs && r.regsValid == s.regsValid && r.zeroflag == s.zeroflag &&
            r.clock == s.clock && r.insCompleted == s.insCompleted && r.code == s.code
    ensures s.stage[MEM].IsBubble() ==> r == s.(stage := s.stage[WB := s.stage[MEM]])
  {
    var l := s.stage[MEM];
    if l.IsBubble() then s.(stage := s.stage[WB := l])
    else
      var t :=
        match l.opcode
        case Store => s.(dataMemory := s.dataMemory[l.memAddress := s.regs[l.rs1]])
        case Load => s.(stage := s.stage[MEM := l.(buffer := s.dataMemory[l.memAddress])])
        case _ => s;
      t.(stage := t.stage[WB := t.stage[MEM]])
  }

  // ------------------------------------------------------------------ execute

  predicate ExecuteDefined(s: State)
    requires WellFormed(s)
  {
    var l := s.stage[EX];
    l.IsBubble() || l.opcode != Add || (IsReg(l.rs1) && (s.regs[l.rs1] == 0 || IsReg(l.rs2)))
  }

  /** The zero flag's value for a result: 1 when it is zero. */
  function ZeroFlagFor(v: int): int {
    if v == 0 then 1 else 0
  }

  /** The EX latch with the per-opcode effect of `execute` applied, before
      it moves on: the new latch, program counter, zero flag and clock. */
  function ExecuteLatch(s: State, l: Latch): (Latch, int, int, int)
    requires WellFormed(s)
    requires l.opcode == Add ==> IsReg(l.rs1) && (s.regs[l.rs1] == 0 || IsReg(l.rs2))
  {
    match l.opcode
    case Movc => (l.(buffer := l.imm), s.pc, s.zeroflag, s.clock)
    case Store => (l.(memAddress := l.rs2Value + l.imm), s.pc, s.zeroflag, s.clock)
    case Load => (l.(memAddress := l.rs1Value + l.imm), s.pc, s.zeroflag, s.clock)
    case Add =>
      // The zero tests read the live register file, not the snapshots.
      var v := if s.regs[l.rs1] == 0 then l.rs2Value + l.imm
               else if s.regs[l.rs2] == 0 then l.rs1Value + l.imm
               else l.rs1Value + l.rs2Value;
      (l.(buffer := v), s.pc, ZeroFlagFor(v), s.clock)
    case Sub =>
      // The zero tests look at the register indices themselves.
      var v := if l.rs1 == 0 then l.rs2Value - l.imm
               else if l.rs2 == 0 then l.rs1Value - l.imm
               else l.rs1Value - l.rs2Value;
      (l.(buffer := v), s.pc, ZeroFlagFor(v), s.clock)
    case And => (l.(buffer := Bits.And(l.rs1Value, l.rs2Value)), s.pc, s.zeroflag, s.clock)
    case Or => (l.(buffer := Bits.Or(l.rs1Value, l.rs2Value)), s.pc, s.zeroflag, s.clock)
    case ExOr => (l.(buffer := Bits.Xor(l.rs1Value, l.rs2Value)), s.pc, s.zeroflag, s.clock)
    case Mul =>
      // One extra clock cycle inside the same call, then the product.
      var v := l.rs1Value * l.rs2Value;
      (l.(buffer := v, stalled := false), s.pc, ZeroFlagFor(v), s.clock + 1)
    case Bz =>
      if s.zeroflag == 1 then (l, l.pc + l.imm, 0, s.clock) else (l, s.pc, s.zeroflag, s.clock)
    case Bnz =>
      if s.zeroflag == 0 then (l, l.pc + l.imm, s.zeroflag, s.clock) else (l, s.pc, s.zeroflag, s.clock)
    case Jump => (l, l.rs1Value + l.imm, s.zeroflag, s.clock)
    case Halt => (l, s.pc, s.zeroflag, s.clock)
    case Unknown => (l, s.pc, s.zeroflag, s.clock)
  }

  /** `execute`: computes results and addresses, updates the zero flag
      (ADD, SUB, MUL only) and redirects the program counter (BZ, BNZ,
      JUMP). Then the latch moves on to memory. */
  function Execute(s: State): (r: State)
    requires WellFormed(s) && ExecuteDefined(s)
    ensures WellFormed(r)
    ensures r.stage[MEM] == r.stage[EX]
    ensures r.stage[F] == s.stage[F] && r.stage[DRF] == s.stage[DRF] && r.stage[WB] == s.stage[WB]
    ensures r.regs == s.regs && r.regsValid == s.regsValid && r.dataMemory == s.dataMemory && r.insCompleted == s.insCompleted &&
            r.code == s.code
    ensures s.stage[EX].IsBubble() ==> r == s.(stage := s.stage[MEM := s.stage[EX]])
    ensures r.clock == s.clock + (if !s.stage[EX].IsBubble() && s.stage[EX].opcode == Mul then 1 else 0)
    ensures r.zeroflag != s.zeroflag ==> !s.stage[EX].IsBubble() && s.stage[EX].opcode in {Add, Sub, Mul, Bz}
    ensures r.pc != s.pc ==> !s.stage[EX].IsBubble() && s.stage[EX].opcode in {Bz, Bnz, Jump}
    ensures r.stage[EX].Instr() == s.stage[EX].Instr() && r.stage[EX].pc == s.stage[EX].pc
  {
    var l := s.stage[EX];
    if l.IsBubble() then s.(stage := s.stage[MEM := l])
    else
      var (l', pc, zeroflag, clock) := ExecuteLatch(s, l);
      s.(pc := pc, zeroflag := zeroflag, clock := clock, stage := s.stage[EX := l'][MEM := l'])
  }

  // ------------------------------------------------------------------- decode

  /** Decode marks `rd` pending only when it differs from both sources;
      this is the index it may touch. */
  predicate MarkDefined(l: Latch) {
    l.rd != l.rs1 && l.rd != l.rs2 ==> IsReg(l.rd)
  }

  predicate DecodeDefined(s: State)
    requires WellFormed(s)
  {
    var l := s.stage[DRF];
    l.IsBubble() ||
    match l.opcode
    case Store => IsReg(l.rs1) && IsReg(l.rs2)
    case Load => MarkDefined(l) && IsReg(l.rs1) && IsReg(l.imm)
    case Jump => IsReg(l.rs1)
    case Add | Sub | And | Or | ExOr | Mul =>
      MarkDefined(l) && IsReg(l.rs1) && (s.regsValid[l.rs1] == 0 ==> IsReg(l.rs2))
    case _ => true
  }

  /** The readiness bits after decode marks the destination of `l` pending. */
  function MarkPending(valid: seq<int>, l: Latch): (v: seq<int>)
    requires |valid| == NumRegs && MarkDefined(l)
    ensures |v| == NumRegs
  {
    if l.rd != l.rs1 && l.rd != l.rs2 then valid[l.rd := 1] else valid
  }

  /** Decode of ADD, SUB, AND, OR, EX-OR and MUL: mark the destination,
      then either read both sources (both ready) or stall fetch and decode. */
  function DecodeArith(s: State, l: Latch): State
    requires WellFormed(s) && MarkDefined(l) && IsReg(l.rs1)
    requires s.regsValid[l.rs1] == 0 ==> IsReg(l.rs2)
  {
    var valid := MarkPending(s.regsValid, l);
    if valid[l.rs1] == 0 && valid[l.rs2] == 0 then
      s.(regsValid := valid,
         stage := s.stage[F := s.stage[F].(stalled := false)]
                         [DRF := l.(stalled := false, rs1Value := s.regs[l.rs1], rs2Value := s.regs[l.rs2])])
    else
      s.(regsValid := valid,
         stage := s.stage[F := s.stage[F].(stalled := true)][DRF := l.(stalled := true)])
  }

  /** `decode`: reads source registers into the latch's snapshots, keeps
      the readiness bits, stalls on hazards, and stops fetch at HALT. Then
      the latch (stalled or not) moves on to execute. */
  function Decode(s: State): (r: State)
    requires WellFormed(s) && DecodeDefined(s)
    ensures WellFormed(r)
    ensures r.stage[EX] == r.stage[DRF]
    ensures r.stage[MEM] == s.stage[MEM] && r.stage[WB] == s.stage[WB]
    ensures r.pc == s.pc && r.regs == s.regs && r.dataMemory == s.dataMemory && r.zeroflag == s.zeroflag &&
            r.clock == s.clock && r.insCompleted == s.insCompleted && r.code == s.code
    ensures s.stage[DRF].IsBubble() ==> r == s.(stage := s.stage[EX := s.stage[DRF]])
    ensures r.stage[F] == s.stage[F].(stalled := r.stage[F].stalled)
    ensures r.stage[DRF].Instr() == s.stage[DRF].Instr() && r.stage[DRF].pc == s.stage[DRF].pc
    ensures r.stage[DRF].busy == s.stage[DRF].busy
  {
    var l := s.stage[DRF];
    if l.IsBubble() then s.(stage := s.stage[EX := l])
    else
      var t :=
        match l.opcode
        case Store =>
          // No hazard check on either source.
          s.(stage := s.stage[DRF := l.(rs1Value := s.regs[l.rs1], rs2Value := s.regs[l.rs2])])
        case Load =>
          // The second snapshot is indexed by the immediate.
          s.(regsValid := MarkPending(s.regsValid, l),
             stage := s.stage[DRF := l.(rs1Value := s.regs[l.rs1], rs2Value := s.regs[l.imm])])
        case Jump => s.(stage := s.stage[DRF := l.(rs1Value := s.regs[l.rs1])])
        case Halt => s.(stage := s.stage[F := s.stage[F].(stalled := true)])
        case Add | Sub | And | Or | ExOr | Mul => DecodeArith(s, l)
        case Movc | Bz | Bnz | Unknown => s;
      t.(stage := t.stage[EX := t.stage[DRF]])
  }

  // -------------------------------------------------------------------- fetch

  predicate FetchDefined(s: State)
    requires WellFormed(s)
  {
    s.stage[F].IsBubble() || 0 <= GetCodeIndex(s.pc) < |s.code|
  }

  /** `fetch`: a free fetch latch takes the instruction at the program
      counter and the program counter advances one word; a busy or stalled
      one keeps its stale contents. Either way the latch is copied into the
      decode latch. */
  function Fetch(s: State): (r: State)
    requires WellFormed(s) && FetchDefined(s)
    ensures WellFormed(r)
    ensures r.stage[DRF] == r.stage[F]
    ensures r.stage[EX] == s.stage[EX] && r.stage[MEM] == s.stage[MEM] && r.stage[WB] == s.stage[WB]
    ensures r.regs == s.regs && r.regsValid == s.regsValid && r.dataMemory == s.dataMemory && r.zeroflag == s.zeroflag &&
            r.clock == s.clock && r.insCompleted == s.insCompleted && r.code == s.code
    ensures s.stage[F].IsBubble() ==> r.pc == s.pc && r.stage[F] == s.stage[F]
    ensures !s.stage[F].IsBubble() ==>
              r.pc == s.pc + WordSize && r.stage[F].pc == s.pc &&
              r.stage[F].Instr() == s.code[GetCodeIndex(s.pc)]
    ensures r.stage[F].busy == s.stage[F].busy && r.stage[F].stalled == s.stage[F].stalled
  {
    var l := s.stage[F];
    if l.IsBubble() then s.(stage := s.stage[DRF := l])
    else
      var ins := s.code[GetCodeIndex(s.pc)];
      var l' := l.(pc := s.pc, opcode := ins.opcode, rd := ins.rd, rs1 := ins.rs1, rs2 := ins.rs2, imm := ins.imm);
      s.(pc := s.pc + WordSize, stage := s.stage[F := l'][DRF := l'])
  }

  // --------------------------------------------------------------------- tick

  datatype Option<T> = None | Some(value: T)

  /** One iteration of the loop in `APEX_cpu_run`: the stages in reverse
      pipeline order, then the clock advances. `None` when some stage would
      index outside an array, which the source does not check. The clock
      advances by one, or by two when execute holds a live MUL, and at most
      one instruction completes. */
  function Step(s: State): (r: Option<State>)
    requires WellFormed(s)
    ensures r.Some? ==> WellFormed(r.value) && r.value.code == s.code
    ensures r.Some? ==>
              r.value.clock == s.clock + (if !s.stage[EX].IsBubble() && s.stage[EX].opcode == Mul then 2 else 1)
    ensures r.Some? ==> r.value.insCompleted == s.insCompleted + (if s.stage[WB].IsBubble() then 0 else 1)
  {
    if !WritebackDefined(s) then None else
    var s1 := Writeback(s);
    if !MemoryDefined(s1) then None else
    var s2 := Memory(s1);
    if !ExecuteDefined(s2) then None else
    var s3 := Execute(s2);
    if !DecodeDefined(s3) then None else
    var s4 := Decode(s3);
    if !FetchDefined(s4) then None else
    var s5 := Fetch(s4);
    Some(s5.(clock := s5.clock + 1))
  }

  /** Every stage of the next tick indexes in range. */
  predicate TickDefined(s: State)
    requires WellFormed(s)
  {
    Step(s).Some?
  }

  /** The state after one tick, when the tick is defined. */
  function Tick(s: State): (r: State)
    requires WellFormed(s) && TickDefined(s)
    ensures WellFormed(r) && r.code == s.code
  {
    Step(s).value
  }

  // ---------------------------------------------------------------------- run

  /** Why a run stopped: every instruction completed (the source's only
      exit), the fuel ran out (the source would keep looping), or the next
      tick would index outside an array (undefined in the source). */
  datatype StopReason = Completed | OutOfFuel | Undefined

  datatype RunResult = RunResult(reason: StopReason, final: State)

  /** `APEX_cpu_run` with at most `fuel` ticks. Completion is tested before
      every tick, and the run stops as completed exactly when the
      completed-instruction counter equals the number of instructions. Along the way the counter
      never decreases and the clock advances at least as much as it. */
  function Run(s: State, fuel: nat): (r: RunResult)
    requires WellFormed(s)
    ensures WellFormed(r.final) && r.final.code == s.code
    ensures r.reason == Completed <==> r.final.insCompleted == |s.code|
    ensures r.final.insCompleted >= s.insCompleted
    ensures r.final.clock - s.clock >= r.final.insCompleted - s.insCompleted
    decreases fuel
  {
    if s.insCompleted == |s.code| then RunResult(Completed, s)
    else if fuel == 0 then RunResult(OutOfFuel, s)
    else match Step(s)
      case None => RunResult(Undefined, s)
      case Some(t) => Run(t, fuel - 1)
  }

  /** A run that has neither completed nor run out of fuel, from a state
      whose next tick is defined, is that tick followed by the rest of the
      run. */
  lemma RunTick(s: State, fuel: nat)
    requires WellFormed(s) && TickDefined(s)
    requires s.insCompleted != |s.code| && fuel > 0
    ensures Run(s, fuel) == Run(Tick(s), fuel - 1)
  {
  }

  /** A run stops as undefined only in front of a tick that would index
      outside an array. */
  lemma {:induction false} RunStopsBeforeUndefinedTick(s: State, fuel: nat)
    requires WellFormed(s)
    ensures Run(s, fuel).reason == Undefined ==> !TickDefined(Run(s, fuel).final)
    decreases fuel
  {
    if s.insCompleted != |s.code| && fuel > 0 {
      match Step(s)
      case Some(t) => RunStopsBeforeUndefinedTick(t, fuel - 1);
      case None =>
    }
  }
}
