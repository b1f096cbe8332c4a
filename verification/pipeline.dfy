/** Properties of whole clock ticks and of runs: how a hazard stall holds
    and releases the front of the pipeline, where a branch sends the next
    fetch, how a result reaches the register file and a STORE a following
    LOAD, what the run loop's counters can do, and the consequence of the
    reset readiness policy. */
module PipelineProps {
  import opened Isa
  import opened Apex
  import StageProps

  /** Decode's readiness test for the sources of `l`, on the readiness
      bits `valid` seen at decode time. */
  predicate SourcesReady(valid: seq<int>, l: Latch)
    requires |valid| == NumRegs && IsReg(l.rs1)
  {
    valid[l.rs1] == 0 && IsReg(l.rs2) && valid[l.rs2] == 0
  }

  /** Each tick moves every instruction one stage down the pipeline: the
      latches of decode, execute and memory reappear in execute, memory and
      writeback carrying the same instruction and address, and decode
      receives a copy of fetch. */
  lemma TickShift(s: State)
    requires WellFormed(s) && TickDefined(s)
    ensures var r := Tick(s);
      r.stage[DRF] == r.stage[F] && r.stage[F].busy == s.stage[F].busy &&
      r.stage[EX].Instr() == s.stage[DRF].Instr() && r.stage[EX].pc == s.stage[DRF].pc &&
      r.stage[EX].busy == s.stage[DRF].busy &&
      r.stage[MEM].Instr() == s.stage[EX].Instr() && r.stage[MEM].pc == s.stage[EX].pc &&
      r.stage[MEM].busy == s.stage[EX].busy &&
      r.stage[WB].Instr() == s.stage[MEM].Instr() && r.stage[WB].pc == s.stage[MEM].pc &&
      r.stage[WB].busy == s.stage[MEM].busy
  {
    var s1 := Writeback(s);
    var s2 := Memory(s1);
    assert s2.stage[WB] == s.stage[MEM].(buffer := s2.stage[WB].buffer);
  }

  /** At a tick boundary the decode latch is a copy of the fetch latch; an
      arithmetic instruction sits in both, on its first tick there or
      already stalled. If, after this tick's writeback, one of its sources
      is still pending, the tick stalls: no instruction is fetched, the
      program counter stays unless a branch executing in the same tick
      redirects it, the instruction stays in fetch and decode, and execute
      receives a bubble. This holds both
      when the stall is new, when writeback released it and decode stalls
      again on the other source, and when nothing released it. */
  lemma StallHolds(s: State)
    requires WellFormed(s) && TickDefined(s)
    requires s.stage[DRF] == s.stage[F] && !s.stage[F].busy && IsArith(s.stage[F].opcode)
    requires IsReg(s.stage[F].rs1) && !SourcesReady(Writeback(s).regsValid, s.stage[F])
    ensures var l, r := s.stage[F], Tick(s);
      r.pc == (if !s.stage[EX].IsBubble() && BranchTarget(s.zeroflag, s.stage[EX]).Some?
               then BranchTarget(s.zeroflag, s.stage[EX]).value else s.pc) &&
      r.stage[F].stalled && r.stage[F].Instr() == l.Instr() && r.stage[F].pc == l.pc &&
      r.stage[DRF] == r.stage[F] &&
      r.stage[EX].stalled && r.stage[EX].Instr() == l.Instr()
  {
    var s1 := Writeback(s);
    var s2 := Memory(s1);
    assert s2.zeroflag == s.zeroflag && s2.stage[EX] == s.stage[EX] && s2.pc == s.pc;
    var s3 := Execute(s2);
    assert s3.stage[DRF] == s.stage[DRF].(stalled := s1.stage[DRF].stalled);
    assert s3.stage[F] == s.stage[F].(stalled := s1.stage[F].stalled);
    assert s3.regsValid == s1.regsValid;
    var s4 := Decode(s3);
    if s3.stage[DRF].stalled {
      // Nothing released the stall: decode passes the latch on untouched.
      assert s4 == s3.(stage := s3.stage[EX := s3.stage[DRF]]);
    } else {
      // Decode looks at the instruction again and stalls on the pending source.
      assert s4.stage[F].stalled && s4.stage[EX] == s3.stage[DRF].(stalled := true);
    }
  }

  /** The tick in which decode accepts an arithmetic instruction. A stalled
      decode latch is not looked at again until a writeback that commits a
      register clears the stall flags, so the latch must be free after this
      tick's writeback (never stalled, or released by it), and its sources
      ready in the register file as that writeback leaves it. Then execute
      receives the instruction, live, with operands read from that register
      file, and fetch is free again. */
  lemma StallReleases(s: State)
    requires WellFormed(s) && TickDefined(s)
    requires s.stage[DRF] == s.stage[F] && !s.stage[F].busy && IsArith(s.stage[F].opcode)
    requires !Writeback(s).stage[DRF].stalled
    requires IsReg(s.stage[F].rs1) && SourcesReady(Writeback(s).regsValid, s.stage[F])
    ensures var l, w, r := s.stage[F], Writeback(s), Tick(s);
      r.stage[EX] == l.(stalled := false, rs1Value := w.regs[l.rs1], rs2Value := w.regs[l.rs2]) &&
      !r.stage[EX].IsBubble() && !r.stage[F].stalled
  {
    var s1 := Writeback(s);
    var s2 := Memory(s1);
    var s3 := Execute(s2);
    assert s3.stage[DRF] == s.stage[F].(stalled := false);
    assert s3.regs == s1.regs && s3.regsValid == s1.regsValid;
  }

  /** The branch target of the live latch `l` in execute, or `None` when
      the branch is not taken in this tick. */
  function BranchTarget(zeroflag: int, l: Latch): (t: Option<int>)
    ensures t.Some? <==> (l.opcode == Bz && zeroflag == 1) || (l.opcode == Bnz && zeroflag == 0) || l.opcode == Jump
  {
    match l.opcode
    case Bz => if zeroflag == 1 then Some(l.pc + l.imm) else None
    case Bnz => if zeroflag == 0 then Some(l.pc + l.imm) else None
    case Jump => Some(l.rs1Value + l.imm)
    case _ => None
  }


  /** In the tick a taken branch executes, the program counter is
      redirected before fetch runs. When fetch is held, the target waits in
      the program counter; when fetch is free, the instruction it takes is
      the one at the target. */
  lemma BranchRedirectsFetch(s: State)
    requires WellFormed(s) && TickDefined(s)
    requires !s.stage[EX].IsBubble() && BranchTarget(s.zeroflag, s.stage[EX]).Some?
    ensures var target, r := BranchTarget(s.zeroflag, s.stage[EX]).value, Tick(s);
      if r.stage[F].IsBubble() then r.pc == target
      else r.pc == target + WordSize && r.stage[F].pc == target &&
           r.stage[F].Instr() == s.code[GetCodeIndex(target)]
  {
    var s1 := Writeback(s);
    var s2 := Memory(s1);
    assert s2.zeroflag == s.zeroflag && s2.stage[EX] == s.stage[EX];
    var s3 := Execute(s2);
    assert s3.pc == BranchTarget(s.zeroflag, s.stage[EX]).value;
  }

  /** A branch that is not taken leaves the program counter to fetch: a
      held fetch leaves it alone, a free one takes the next sequential
      word. */
  lemma BranchNotTaken(s: State)
    requires WellFormed(s) && TickDefined(s)
    requires !s.stage[EX].IsBubble() && s.stage[EX].opcode in {Bz, Bnz}
    requires BranchTarget(s.zeroflag, s.stage[EX]).None?
    ensures var r := Tick(s);
      if r.stage[F].IsBubble() then r.pc == s.pc
      else r.pc == s.pc + WordSize && r.stage[F].pc == s.pc &&
           r.stage[F].Instr() == s.code[GetCodeIndex(s.pc)]
  {
    var s1 := Writeback(s);
    var s2 := Memory(s1);
    assert s2.zeroflag == s.zeroflag && s2.stage[EX] == s.stage[EX] && s2.pc == s.pc;
  }

  /** A STORE in the memory stage immediately followed by a LOAD from the
      same address: two ticks later the LOAD sits in writeback holding the
      value the STORE wrote, the register file's `rs1` as it stood in the
      STORE's memory stage. */
  lemma StoreThenLoadAcrossTicks(s: State)
    requires WellFormed(s) && TickDefined(s) && TickDefined(Tick(s))
    requires !s.stage[MEM].IsBubble() && s.stage[MEM].opcode == Store
    requires !s.stage[EX].IsBubble() && s.stage[EX].opcode == Load
    requires s.stage[EX].rs1Value + s.stage[EX].imm == s.stage[MEM].memAddress
    ensures var r := Tick(Tick(s));
      r.stage[WB].opcode == Load && r.stage[WB].pc == s.stage[EX].pc &&
      r.stage[WB].buffer == Writeback(s).regs[s.stage[MEM].rs1]
  {
    var a := s.stage[MEM].memAddress;
    var v := Writeback(s).regs[s.stage[MEM].rs1];
    var s1 := Writeback(s);
    var s2 := Memory(s1);
    assert s2.dataMemory[a] == v;
    var s3 := Execute(s2);
    assert s3.stage[MEM] == s.stage[EX].(memAddress := a);
    var s4 := Decode(s3);
    var s5 := Fetch(s4);
    var t := Tick(s);
    assert t.dataMemory[a] == v && t.stage[MEM] == s3.stage[MEM];
    var t1 := Writeback(t);
    assert t1.dataMemory == t.dataMemory && t1.stage[MEM] == t.stage[MEM];
  }

  /** A live latch other than STORE or LOAD in the memory stage reaches
      writeback on the next tick exactly as execute left it, result buffer
      included, and data memory does not change. */
  lemma AluResultReachesWb(s: State)
    requires WellFormed(s) && TickDefined(s)
    requires !s.stage[MEM].IsBubble() && s.stage[MEM].opcode !in {Store, Load}
    ensures Tick(s).stage[WB] == s.stage[MEM] && Tick(s).dataMemory == s.dataMemory
  {
    assert Writeback(s).stage[MEM] == s.stage[MEM];
    StageProps.MemoryPassThrough(Writeback(s));
  }

  /** The tick after that commits the result: a value-producing opcode
      other than LOAD in the memory stage has its buffer in register `rd`
      two ticks later, and no other register changes. */
  lemma AluResultCommits(s: State)
    requires WellFormed(s) && TickDefined(s) && TickDefined(Tick(s))
    requires !s.stage[MEM].IsBubble() && s.stage[MEM].opcode != Load && WritesRegister(s.stage[MEM].opcode)
    ensures var l, t := s.stage[MEM], Tick(s);
      Tick(t).regs == t.regs[l.rd := l.buffer]
  {
    AluResultReachesWb(s);
    var t := Tick(s);
    var t1 := Writeback(t);
    assert t1.regs == t.regs[s.stage[MEM].rd := s.stage[MEM].buffer];
    var t4 := Decode(Execute(Memory(t1)));
    assert t4.regs == t1.regs;
  }

  /** The memory stage holds a live STORE to address `a`. */
  predicate StoresTo(s: State, a: int)
    requires WellFormed(s)
  {
    !s.stage[MEM].IsBubble() && s.stage[MEM].opcode == Store && s.stage[MEM].memAddress == a
  }

  /** Memory stage is the only writer of data memory: a tick whose memory
      stage holds no live STORE to `a` leaves the word at `a` alone. */
  lemma TickKeepsWord(s: State, a: int)
    requires WellFormed(s) && TickDefined(s) && IsDataAddress(a) && !StoresTo(s, a)
    ensures Tick(s).dataMemory[a] == s.dataMemory[a]
  {
    var s1 := Writeback(s);
    assert s1.dataMemory == s.dataMemory && s1.stage[MEM] == s.stage[MEM];
  }

  /** The state `k` ticks after `s`, when every one of those ticks is
      defined. */
  function Ticks(s: State, k: nat): (r: Option<State>)
    requires WellFormed(s)
    ensures r.Some? ==> WellFormed(r.value) && r.value.code == s.code
    decreases k
  {
    if k == 0 then Some(s)
    else match Step(s)
      case None => None
      case Some(t) => Ticks(t, k - 1)
  }

  /** No live STORE to `a` is in the memory stage of `s` or of the states
      the next `k - 1` ticks reach. */
  predicate NoStoreFor(s: State, k: nat, a: int)
    requires WellFormed(s)
    decreases k
  {
    k == 0 ||
    (!StoresTo(s, a) && match Step(s) case None => true case Some(t) => NoStoreFor(t, k - 1, a))
  }

  /** Over `k` ticks in which no live STORE to `a` reaches the memory stage,
      the word at `a` keeps its value. */
  lemma {:induction false} WordSurvives(s: State, k: nat, a: int)
    requires WellFormed(s) && IsDataAddress(a) && Ticks(s, k).Some? && NoStoreFor(s, k, a)
    ensures Ticks(s, k).value.dataMemory[a] == s.dataMemory[a]
    decreases k
  {
    if k > 0 {
      match Step(s)
      case Some(t) =>
        assert Ticks(s, k) == Ticks(t, k - 1) && NoStoreFor(t, k - 1, a);
        TickKeepsWord(s, a);
        WordSurvives(t, k - 1, a);
      case None =>
    }
  }

  /** A STORE and a later LOAD from the same address, any number of ticks
      apart: `s` holds the STORE in its memory stage, and `k` ticks after
      the STORE's tick the LOAD is there. If no other live STORE to that
      address reached the memory stage in between, the LOAD's tick leaves
      in the writeback latch the value the STORE wrote, the register
      file's `rs1` as it stood in the STORE's memory stage. */
  lemma StoreThenLoadLater(s: State, k: nat)
    requires WellFormed(s) && TickDefined(s) && StoresTo(s, s.stage[MEM].memAddress)
    requires Ticks(Tick(s), k).Some? && NoStoreFor(Tick(s), k, s.stage[MEM].memAddress)
    requires var last := Ticks(Tick(s), k).value;
      TickDefined(last) && !last.stage[MEM].IsBubble() && last.stage[MEM].opcode == Load &&
      last.stage[MEM].memAddress == s.stage[MEM].memAddress
    ensures var last := Ticks(Tick(s), k).value;
      Tick(last).stage[WB].opcode == Load && Tick(last).stage[WB].pc == last.stage[MEM].pc &&
      Tick(last).stage[WB].buffer == Writeback(s).regs[s.stage[MEM].rs1]
  {
    var a := s.stage[MEM].memAddress;
    var v := Writeback(s).regs[s.stage[MEM].rs1];
    var s1 := Writeback(s);
    assert s1.stage[MEM] == s.stage[MEM] && IsDataAddress(a);
    assert Memory(s1).dataMemory[a] == v;
    assert Tick(s).dataMemory[a] == v;
    WordSurvives(Tick(s), k, a);
    var last := Ticks(Tick(s), k).value;
    var w := Writeback(last);
    assert w.dataMemory[a] == v && w.stage[MEM] == last.stage[MEM];
  }

  // ------------------------------------------------------------------- runs

  /** A run that completes within some fuel completes the same way with
      any larger fuel: the fuel bound only cuts runs short. */
  lemma {:induction false} RunMoreFuel(s: State, fuel: nat, more: nat)
    requires WellFormed(s) && Run(s, fuel).reason == Completed
    requires more >= fuel
    ensures Run(s, more) == Run(s, fuel)
    decreases fuel
  {
    if s.insCompleted != |s.code| {
      // Had the fuel or the next tick been missing, the run would not
      // have completed.
      match Step(s)
      case Some(t) => RunMoreFuel(t, fuel - 1, more - 1);
      case None =>
    }
  }

  // ------------------------------------------------- the reset readiness bits

  /** A machine stuck on its first instruction: an arithmetic instruction
      stalled in fetch and decode, bubbles behind it, and every readiness
      bit still nonzero, so nothing will ever release the stall. */
  predicate Stuck(s: State, ins: Instruction) {
    WellFormed(s) && s.insCompleted == 0 &&
    (forall i :: 0 <= i < NumRegs ==> s.regsValid[i] != 0) &&
    s.stage[F].stalled && s.stage[F].Instr() == ins && s.stage[DRF] == s.stage[F] &&
    s.stage[EX].IsBubble() && s.stage[MEM].IsBubble() && s.stage[WB].IsBubble()
  }

  lemma StuckTick(s: State, ins: Instruction)
    requires Stuck(s, ins)
    ensures TickDefined(s) && Stuck(Tick(s), ins) && Tick(s).pc == s.pc
  {
  }

  lemma {:induction false} StuckRun(s: State, ins: Instruction, fuel: nat)
    requires Stuck(s, ins) && |s.code| > 0
    ensures Run(s, fuel).reason == OutOfFuel
    decreases fuel
  {
    if fuel > 0 {
      StuckTick(s, ins);
      StuckRun(Tick(s), ins, fuel - 1);
    }
  }

  /** The machine after its first tick: the first instruction sits live in
      fetch and decode, nothing behind it, and every readiness bit is still
      nonzero. */
  predicate Fetched(s: State, ins: Instruction) {
    WellFormed(s) && s.insCompleted == 0 &&
    (forall i :: 0 <= i < NumRegs ==> s.regsValid[i] != 0) &&
    !s.stage[F].IsBubble() && s.stage[F].Instr() == ins && s.stage[DRF] == s.stage[F] &&
    s.stage[EX].busy && s.stage[MEM].busy && s.stage[WB].busy
  }

  /** A machine as `APEX_cpu_init` leaves it, before its first tick: a
      nonempty program, nothing completed, the program counter at the first
      instruction, fetch free, every later stage busy and every readiness
      bit nonzero. */
  predicate Reset(s: State) {
    WellFormed(s) && |s.code| > 0 && s.insCompleted == 0 && s.pc == CodeBase &&
    (forall i :: 0 <= i < NumRegs ==> s.regsValid[i] != 0) &&
    !s.stage[F].IsBubble() &&
    s.stage[DRF].busy && s.stage[EX].busy && s.stage[MEM].busy && s.stage[WB].busy
  }

  lemma ResetTick(s: State)
    requires Reset(s)
    ensures TickDefined(s) && Fetched(Tick(s), s.code[0])
  {
    CodeIndexOfAddress(0);
  }

  lemma FetchedTick(s: State, ins: Instruction)
    requires Fetched(s, ins) && IsArith(ins.opcode)
    requires IsReg(ins.rd) && IsReg(ins.rs1) && IsReg(ins.rs2)
    ensures TickDefined(s) && Stuck(Tick(s), ins)
  {
    var s1 := Writeback(s);
    assert s1 == s;
    var s3 := Execute(Memory(s1));
    assert s3.stage[DRF] == s.stage[DRF] && s3.regsValid == s.regsValid;
    var s4 := Decode(s3);
    assert s4.stage[F].stalled && s4.stage[EX].stalled;
    assert forall i :: 0 <= i < NumRegs ==> s4.regsValid[i] != 0;
  }

  /** From the state after the first tick, an arithmetic instruction in
      fetch and decode stalls and nothing ever releases it. */
  lemma {:induction false} FetchedRun(s: State, ins: Instruction, fuel: nat)
    requires Fetched(s, ins) && IsArith(ins.opcode) && |s.code| > 0
    requires IsReg(ins.rd) && IsReg(ins.rs1) && IsReg(ins.rs2)
    ensures Run(s, fuel).reason == OutOfFuel
  {
    if fuel > 0 {
      FetchedTick(s, ins);
      StuckRun(Tick(s), ins, fuel - 1);
    }
  }

  /** From a reset machine whose first instruction is arithmetic, no run
      completes. */
  lemma ResetRun(s: State, fuel: nat)
    requires Reset(s) && IsArith(s.code[0].opcode)
    requires IsReg(s.code[0].rd) && IsReg(s.code[0].rs1) && IsReg(s.code[0].rs2)
    ensures Run(s, fuel).reason == OutOfFuel
  {
    if fuel > 0 {
      ResetTick(s);
      FetchedRun(Tick(s), s.code[0], fuel - 1);
    }
  }

  /** Every readiness bit starts pending, and only writeback makes one
      ready. So a program whose first instruction is an arithmetic one
      never completes, whatever the fuel: its operands are never read, and
      nothing gets past it. */
  lemma ResetStallsForever(code: seq<Instruction>, fuel: nat)
    requires |code| > 0 && IsArith(code[0].opcode)
    requires IsReg(code[0].rd) && IsReg(code[0].rs1) && IsReg(code[0].rs2)
    ensures Run(Init(code), fuel).reason == OutOfFuel
  {
    ResetRun(Init(code), fuel);
  }

  // ------------------------------------------------ the uninitialised counters

  /** `APEX_cpu_init` leaves the completed-instruction counter as `malloc`
      returned it. If that value equals the program length, the run loop
      stops before its first tick with nothing executed: every register
      still holds 0, whatever the program. */
  lemma GarbageCounterSkipsProgram(code: seq<Instruction>, zeroflag: int, clock: int, fuel: nat)
    ensures var s := InitAsWritten(code, zeroflag, clock, |code|);
      Run(s, fuel) == RunResult(Completed, s) &&
      forall i :: 0 <= i < NumRegs ==> Run(s, fuel).final.regs[i] == 0
  {
  }

  /** If the garbage counter starts above the program length, the loop's
      equality test can never succeed: the counter only grows, so no amount
      of fuel completes the run. */
  lemma GarbageCounterNeverCompletes(code: seq<Instruction>, zeroflag: int, clock: int, count: int, fuel: nat)
    requires count > |code|
    ensures Run(InitAsWritten(code, zeroflag, clock, count), fuel).reason != Completed
  {
  }

  /** With the counters zeroed, a run completes only after it has counted
      every instruction through writeback, which takes at least one clock
      cycle each. */
  lemma ZeroedRunCountsEveryInstruction(code: seq<Instruction>, fuel: nat)
    ensures var r := Run(Init(code), fuel);
      r.reason == Completed ==> r.final.insCompleted == |code| && r.final.clock >= |code|
  {
  }
}
