/** The STORE/LOAD program without the ADD in front. STORE and LOAD take
    their operands in decode with no readiness check, while the MOVC that
    sets R1 is still in the pipeline, so both see R1 as 0. */
module StaleStoreScenario {
  import opened Isa
  import opened Apex

  /** R0 := 5; R1 := 10; mem[R1 + 0] := R0; R3 := mem[R1 + 0]; stop. */
  const Program: seq<Instruction> := [
    Instruction(Movc, 0, 0, 0, 5),  // MOVC R0, #5
    Instruction(Movc, 1, 0, 0, 10),  // MOVC R1, #10
    Instruction(Store, 0, 0, 1, 0),  // STORE R0, R1, #0
    Instruction(Load, 3, 1, 0, 0),  // LOAD R3, R1, #0
    Instruction(Halt, 0, 0, 0, 0)]  // HALT

  /** The machine after each clock tick, starting from `APEX_cpu_init`. */
  const Stale0: State := Init(Program)
  const Stale1: State := Stale0.(
      pc := 4004,
      stage := [
        Latch(4000, Movc, 0, 0, 0, 5, 0, 0, 0, 0, false, false),
        Latch(4000, Movc, 0, 0, 0, 5, 0, 0, 0, 0, false, false),
        Latch(0, Unknown, 0, 0, 0, 0, 0, 0, 0, 0, true, false),
        Latch(0, Unknown, 0, 0, 0, 0, 0, 0, 0, 0, true, false),
        Latch(0, Unknown, 0, 0, 0, 0, 0, 0, 0, 0, true, false)],
      clock := 1)
  const Stale2: State := Stale1.(
      pc := 4008,
      stage := [
        Latch(4004, Movc, 1, 0, 0, 10, 0, 0, 0, 0, false, false),
        Latch(4004, Movc, 1, 0, 0, 10, 0, 0, 0, 0, false, false),
        Latch(4000, Movc, 0, 0, 0, 5, 0, 0, 0, 0, false, false),
        Latch(0, Unknown, 0, 0, 0, 0, 0, 0, 0, 0, true, false),
        Latch(0, Unknown, 0, 0, 0, 0, 0, 0, 0, 0, true, false)],
      clock := 2)
  const Stale3: State := Stale2.(
      pc := 4012,
      stage := [
        Latch(4008, Store, 0, 0, 1, 0, 0, 0, 0, 0, false, false),
        Latch(4008, Store, 0, 0, 1, 0, 0, 0, 0, 0, false, false),
        Latch(4004, Movc, 1, 0, 0, 10, 0, 0, 0, 0, false, false),
        Latch(4000, Movc, 0, 0, 0, 5, 0, 0, 5, 0, false, false),
        Latch(0, Unknown, 0, 0, 0, 0, 0, 0, 0, 0, true, false)],
      clock := 3)
  const Stale4: State := Stale3.(
      pc := 4016,
      stage := [
        Latch(4012, Load, 3, 1, 0, 0, 0, 0, 0, 0, false, false),
        Latch(4012, Load, 3, 1, 0, 0, 0, 0, 0, 0, false, false),
        Latch(4008, Store, 0, 0, 1, 0, 0, 0, 0, 0, false, false),
        Latch(4004, Movc, 1, 0, 0, 10, 0, 0, 10, 0, false, false),
        Latch(4000, Movc, 0, 0, 0, 5, 0, 0, 5, 0, false, false)],
      clock := 4)
  const Stale5: State := Stale4.(
      pc := 4020,
      regs := Stale4.regs[0 := 5],
      regsValid := Stale4.regsValid[0 := 0][3 := 1],
      stage := [
        Latch(4016, Halt, 0, 0, 0, 0, 0, 0, 0, 0, false, false),
        Latch(4016, Halt, 0, 0, 0, 0, 0, 0, 0, 0, false, false),
        Latch(4012, Load, 3, 1, 0, 0, 0, 5, 0, 0, false, false),
        Latch(4008, Store, 0, 0, 1, 0, 0, 0, 0, 0, false, false),
        Latch(4004, Movc, 1, 0, 0, 10, 0, 0, 10, 0, false, false)],
      clock := 5,
      insCompleted := 1)
  const Stale6: State := Stale5.(
      regs := Stale5.regs[1 := 10],
      regsValid := Stale5.regsValid[1 := 0],
      stage := [
        Latch(4016, Halt, 0, 0, 0, 0, 0, 0, 0, 0, false, true),
        Latch(4016, Halt, 0, 0, 0, 0, 0, 0, 0, 0, false, true),
        Latch(4016, Halt, 0, 0, 0, 0, 0, 0, 0, 0, false, false),
        Latch(4012, Load, 3, 1, 0, 0, 0, 5, 0, 0, false, false),
        Latch(4008, Store, 0, 0, 1, 0, 0, 0, 0, 0, false, false)],
      dataMemory := Stale5.dataMemory[0 := 5],
      clock := 6,
      insCompleted := 2)
  const Stale7: State := Stale6.(
      stage := [
        Latch(4016, Halt, 0, 0, 0, 0, 0, 0, 0, 0, false, true),
        Latch(4016, Halt, 0, 0, 0, 0, 0, 0, 0, 0, false, true),
        Latch(4016, Halt, 0, 0, 0, 0, 0, 0, 0, 0, false, true),
        Latch(4016, Halt, 0, 0, 0, 0, 0, 0, 0, 0, false, false),
        Latch(4012, Load, 3, 1, 0, 0, 0, 5, 5, 0, false, false)],
      clock := 7,
      insCompleted := 3)
  const Stale8: State := Stale7.(
      regs := Stale7.regs[3 := 5],
      regsValid := Stale7.regsValid[3 := 0],
      stage := [
        Latch(4016, Halt, 0, 0, 0, 0, 0, 0, 0, 0, false, true),
        Latch(4016, Halt, 0, 0, 0, 0, 0, 0, 0, 0, false, true),
        Latch(4016, Halt, 0, 0, 0, 0, 0, 0, 0, 0, false, false),
        Latch(4016, Halt, 0, 0, 0, 0, 0, 0, 0, 0, false, true),
        Latch(4016, Halt, 0, 0, 0, 0, 0, 0, 0, 0, false, false)],
      clock := 8,
      insCompleted := 4)
  const Stale9: State := Stale8.(
      stage := [
        Latch(4016, Halt, 0, 0, 0, 0, 0, 0, 0, 0, false, true),
        Latch(4016, Halt, 0, 0, 0, 0, 0, 0, 0, 0, false, true),
        Latch(4016, Halt, 0, 0, 0, 0, 0, 0, 0, 0, false, true),
        Latch(4016, Halt, 0, 0, 0, 0, 0, 0, 0, 0, false, false),
        Latch(4016, Halt, 0, 0, 0, 0, 0, 0, 0, 0, false, true)],
      clock := 9,
      insCompleted := 5)

  /** Each tick, stage by stage: the state after writeback, memory,
      execute and decode; fetch and the clock then give the next state. */
  lemma Tick1()
    ensures TickDefined(Stale0) && Tick(Stale0) == Stale1
  {
    var s1 := Writeback(Stale0);
    assert s1 == Stale0;
    var s2 := Memory(s1);
    assert s2 == s1;
    var s3 := Execute(s2);
    assert s3 == s2;
    var s4 := Decode(s3);
    assert s4 == s3;
  }

  lemma Tick2()
    ensures TickDefined(Stale1) && Tick(Stale1) == Stale2
  {
    var s1 := Writeback(Stale1);
    assert s1 == Stale1;
    var s2 := Memory(s1);
    assert s2 == s1;
    var s3 := Execute(s2);
    assert s3 == s2;
    var s4 := Decode(s3);
    assert s4 == s3.(
      stage := [
        Latch(4000, Movc, 0, 0, 0, 5, 0, 0, 0, 0, false, false),
        Latch(4000, Movc, 0, 0, 0, 5, 0, 0, 0, 0, false, false),
        Latch(4000, Movc, 0, 0, 0, 5, 0, 0, 0, 0, false, false),
        Latch(0, Unknown, 0, 0, 0, 0, 0, 0, 0, 0, true, false),
        Latch(0, Unknown, 0, 0, 0, 0, 0, 0, 0, 0, true, false)]);
  }

  lemma Tick3()
    ensures TickDefined(Stale2) && Tick(Stale2) == Stale3
  {
    var s1 := Writeback(Stale2);
    assert s1 == Stale2;
    var s2 := Memory(s1);
    assert s2 == s1;
    var s3 := Execute(s2);
    assert s3 == s2.(
      stage := [
        Latch(4004, Movc, 1, 0, 0, 10, 0, 0, 0, 0, false, false),
        Latch(4004, Movc, 1, 0, 0, 10, 0, 0, 0, 0, false, false),
        Latch(4000, Movc, 0, 0, 0, 5, 0, 0, 5, 0, false, false),
        Latch(4000, Movc, 0, 0, 0, 5, 0, 0, 5, 0, false, false),
        Latch(0, Unknown, 0, 0, 0, 0, 0, 0, 0, 0, true, false)]);
    var s4 := Decode(s3);
    assert s4 == s3.(
      stage := [
        Latch(4004, Movc, 1, 0, 0, 10, 0, 0, 0, 0, false, false),
        Latch(4004, Movc, 1, 0, 0, 10, 0, 0, 0, 0, false, false),
        Latch(4004, Movc, 1, 0, 0, 10, 0, 0, 0, 0, false, false),
        Latch(4000, Movc, 0, 0, 0, 5, 0, 0, 5, 0, false, false),
        Latch(0, Unknown, 0, 0, 0, 0, 0, 0, 0, 0, true, false)]);
  }

  lemma Tick4()
    ensures TickDefined(Stale3) && Tick(Stale3) == Stale4
  {
    var s1 := Writeback(Stale3);
    assert s1 == Stale3;
    var s2 := Memory(s1);
    assert s2 == s1.(
      stage := [
        Latch(4008, Store, 0, 0, 1, 0, 0, 0, 0, 0, false, false),
        Latch(4008, Store, 0, 0, 1, 0, 0, 0, 0, 0, false, false),
        Latch(4004, Movc, 1, 0, 0, 10, 0, 0, 0, 0, false, false),
        Latch(4000, Movc, 0, 0, 0, 5, 0, 0, 5, 0, false, false),
        Latch(4000, Movc, 0, 0, 0, 5, 0, 0, 5, 0, false, false)]);
    var s3 := Execute(s2);
    assert s3 == s2.(
      stage := [
        Latch(4008, Store, 0, 0, 1, 0, 0, 0, 0, 0, false, false),
        Latch(4008, Store, 0, 0, 1, 0, 0, 0, 0, 0, false, false),
        Latch(4004, Movc, 1, 0, 0, 10, 0, 0, 10, 0, false, false),
        Latch(4004, Movc, 1, 0, 0, 10, 0, 0, 10, 0, false, false),
        Latch(4000, Movc, 0, 0, 0, 5, 0, 0, 5, 0, false, false)]);
    var s4 := Decode(s3);
    assert s4 == s3.(
      stage := [
        Latch(4008, Store, 0, 0, 1, 0, 0, 0, 0, 0, false, false),
        Latch(4008, Store, 0, 0, 1, 0, 0, 0, 0, 0, false, false),
        Latch(4008, Store, 0, 0, 1, 0, 0, 0, 0, 0, false, false),
        Latch(4004, Movc, 1, 0, 0, 10, 0, 0, 10, 0, false, false),
        Latch(4000, Movc, 0, 0, 0, 5, 0, 0, 5, 0, false, false)]);
  }

  lemma Tick5()
    ensures TickDefined(Stale4) && Tick(Stale4) == Stale5
  {
    var s1 := Writeback(Stale4);
    assert s1 == Stale4.(
      regs := Stale4.regs[0 := 5],
      regsValid := Stale4.regsValid[0 := 0],
      insCompleted := 1);
    var s2 := Memory(s1);
    assert s2 == s1.(
      stage := [
        Latch(4012, Load, 3, 1, 0, 0, 0, 0, 0, 0, false, false),
        Latch(4012, Load, 3, 1, 0, 0, 0, 0, 0, 0, false, false),
        Latch(4008, Store, 0, 0, 1, 0, 0, 0, 0, 0, false, false),
        Latch(4004, Movc, 1, 0, 0, 10, 0, 0, 10, 0, false, false),
        Latch(4004, Movc, 1, 0, 0, 10, 0, 0, 10, 0, false, false)]);
    var s3 := Execute(s2);
    assert s3 == s2.(
      stage := [
        Latch(4012, Load, 3, 1, 0, 0, 0, 0, 0, 0, false, false),
        Latch(4012, Load, 3, 1, 0, 0, 0, 0, 0, 0, false, false),
        Latch(4008, Store, 0, 0, 1, 0, 0, 0, 0, 0, false, false),
        Latch(4008, Store, 0, 0, 1, 0, 0, 0, 0, 0, false, false),
        Latch(4004, Movc, 1, 0, 0, 10, 0, 0, 10, 0, false, false)]);
    var s4 := Decode(s3);
    assert s4 == s3.(
      regsValid := s3.regsValid[3 := 1],
      stage := [
        Latch(4012, Load, 3, 1, 0, 0, 0, 0, 0, 0, false, false),
        Latch(4012, Load, 3, 1, 0, 0, 0, 5, 0, 0, false, false),
        Latch(4012, Load, 3, 1, 0, 0, 0, 5, 0, 0, false, false),
        Latch(4008, Store, 0, 0, 1, 0, 0, 0, 0, 0, false, false),
        Latch(4004, Movc, 1, 0, 0, 10, 0, 0, 10, 0, false, false)]);
  }

  lemma Tick6()
    ensures TickDefined(Stale5) && Tick(Stale5) == Stale6
  {
    var s1 := Writeback(Stale5);
    assert s1 == Stale5.(
      regs := Stale5.regs[1 := 10],
      regsValid := Stale5.regsValid[1 := 0],
      insCompleted := 2);
    var s2 := Memory(s1);
    assert s2 == s1.(
      stage := [
        Latch(4016, Halt, 0, 0, 0, 0, 0, 0, 0, 0, false, false),
        Latch(4016, Halt, 0, 0, 0, 0, 0, 0, 0, 0, false, false),
        Latch(4012, Load, 3, 1, 0, 0, 0, 5, 0, 0, false, false),
        Latch(4008, Store, 0, 0, 1, 0, 0, 0, 0, 0, false, false),
        Latch(4008, Store, 0, 0, 1, 0, 0, 0, 0, 0, false, false)],
      dataMemory := s1.dataMemory[0 := 5]);
    var s3 := Execute(s2);
    assert s3 == s2.(
      stage := [
        Latch(4016, Halt, 0, 0, 0, 0, 0, 0, 0, 0, false, false),
        Latch(4016, Halt, 0, 0, 0, 0, 0, 0, 0, 0, false, false),
        Latch(4012, Load, 3, 1, 0, 0, 0, 5, 0, 0, false, false),
        Latch(4012, Load, 3, 1, 0, 0, 0, 5, 0, 0, false, false),
        Latch(4008, Store, 0, 0, 1, 0, 0, 0, 0, 0, false, false)]);
    var s4 := Decode(s3);
    assert s4 == s3.(
      stage := [
        Latch(4016, Halt, 0, 0, 0, 0, 0, 0, 0, 0, false, true),
        Latch(4016, Halt, 0, 0, 0, 0, 0, 0, 0, 0, false, false),
        Latch(4016, Halt, 0, 0, 0, 0, 0, 0, 0, 0, false, false),
        Latch(4012, Load, 3, 1, 0, 0, 0, 5, 0, 0, false, false),
        Latch(4008, Store, 0, 0, 1, 0, 0, 0, 0, 0, false, false)]);
  }

  lemma Tick7()
    ensures TickDefined(Stale6) && Tick(Stale6) == Stale7
  {
    var s1 := Writeback(Stale6);
    assert s1 == Stale6.(
      insCompleted := 3);
    var s2 := Memory(s1);
    assert s2 == s1.(
      stage := [
        Latch(4016, Halt, 0, 0, 0, 0, 0, 0, 0, 0, false, true),
        Latch(4016, Halt, 0, 0, 0, 0, 0, 0, 0, 0, false, true),
        Latch(4016, Halt, 0, 0, 0, 0, 0, 0, 0, 0, false, false),
        Latch(4012, Load, 3, 1, 0, 0, 0, 5, 5, 0, false, false),
        Latch(4012, Load, 3, 1, 0, 0, 0, 5, 5, 0, false, false)]);
    var s3 := Execute(s2);
    assert s3 == s2.(
      stage := [
        Latch(4016, Halt, 0, 0, 0, 0, 0, 0, 0, 0, false, true),
        Latch(4016, Halt, 0, 0, 0, 0, 0, 0, 0, 0, false, true),
        Latch(4016, Halt, 0, 0, 0, 0, 0, 0, 0, 0, false, false),
        Latch(4016, Halt, 0, 0, 0, 0, 0, 0, 0, 0, false, false),
        Latch(4012, Load, 3, 1, 0, 0, 0, 5, 5, 0, false, false)]);
    var s4 := Decode(s3);
    assert s4 == s3.(
      stage := [
        Latch(4016, Halt, 0, 0, 0, 0, 0, 0, 0, 0, false, true),
        Latch(4016, Halt, 0, 0, 0, 0, 0, 0, 0, 0, false, true),
        Latch(4016, Halt, 0, 0, 0, 0, 0, 0, 0, 0, false, true),
        Latch(4016, Halt, 0, 0, 0, 0, 0, 0, 0, 0, false, false),
        Latch(4012, Load, 3, 1, 0, 0, 0, 5, 5, 0, false, false)]);
  }

  lemma Tick8()
    ensures TickDefined(Stale7) && Tick(Stale7) == Stale8
  {
    var s1 := Writeback(Stale7);
    assert s1 == Stale7.(
      regs := Stale7.regs[3 := 5],
      regsValid := Stale7.regsValid[3 := 0],
      stage := [
        Latch(4016, Halt, 0, 0, 0, 0, 0, 0, 0, 0, false, false),
        Latch(4016, Halt, 0, 0, 0, 0, 0, 0, 0, 0, false, false),
        Latch(4016, Halt, 0, 0, 0, 0, 0, 0, 0, 0, false, true),
        Latch(4016, Halt, 0, 0, 0, 0, 0, 0, 0, 0, false, false),
        Latch(4012, Load, 3, 1, 0, 0, 0, 5, 5, 0, false, false)],
      insCompleted := 4);
    var s2 := Memory(s1);
    assert s2 == s1.(
      stage := [
        Latch(4016, Halt, 0, 0, 0, 0, 0, 0, 0, 0, false, false),
        Latch(4016, Halt, 0, 0, 0, 0, 0, 0, 0, 0, false, false),
        Latch(4016, Halt, 0, 0, 0, 0, 0, 0, 0, 0, false, true),
        Latch(4016, Halt, 0, 0, 0, 0, 0, 0, 0, 0, false, false),
        Latch(4016, Halt, 0, 0, 0, 0, 0, 0, 0, 0, false, false)]);
    var s3 := Execute(s2);
    assert s3 == s2.(
      stage := [
        Latch(4016, Halt, 0, 0, 0, 0, 0, 0, 0, 0, false, false),
        Latch(4016, Halt, 0, 0, 0, 0, 0, 0, 0, 0, false, false),
        Latch(4016, Halt, 0, 0, 0, 0, 0, 0, 0, 0, false, true),
        Latch(4016, Halt, 0, 0, 0, 0, 0, 0, 0, 0, false, true),
        Latch(4016, Halt, 0, 0, 0, 0, 0, 0, 0, 0, false, false)]);
    var s4 := Decode(s3);
    assert s4 == s3.(
      stage := [
        Latch(4016, Halt, 0, 0, 0, 0, 0, 0, 0, 0, false, true),
        Latch(4016, Halt, 0, 0, 0, 0, 0, 0, 0, 0, false, false),
        Latch(4016, Halt, 0, 0, 0, 0, 0, 0, 0, 0, false, false),
        Latch(4016, Halt, 0, 0, 0, 0, 0, 0, 0, 0, false, true),
        Latch(4016, Halt, 0, 0, 0, 0, 0, 0, 0, 0, false, false)]);
  }

  lemma Tick9()
    ensures TickDefined(Stale8) && Tick(Stale8) == Stale9
  {
    var s1 := Writeback(Stale8);
    assert s1 == Stale8.(
      insCompleted := 5);
    var s2 := Memory(s1);
    assert s2 == s1.(
      stage := [
        Latch(4016, Halt, 0, 0, 0, 0, 0, 0, 0, 0, false, true),
        Latch(4016, Halt, 0, 0, 0, 0, 0, 0, 0, 0, false, true),
        Latch(4016, Halt, 0, 0, 0, 0, 0, 0, 0, 0, false, false),
        Latch(4016, Halt, 0, 0, 0, 0, 0, 0, 0, 0, false, true),
        Latch(4016, Halt, 0, 0, 0, 0, 0, 0, 0, 0, false, true)]);
    var s3 := Execute(s2);
    assert s3 == s2.(
      stage := [
        Latch(4016, Halt, 0, 0, 0, 0, 0, 0, 0, 0, false, true),
        Latch(4016, Halt, 0, 0, 0, 0, 0, 0, 0, 0, false, true),
        Latch(4016, Halt, 0, 0, 0, 0, 0, 0, 0, 0, false, false),
        Latch(4016, Halt, 0, 0, 0, 0, 0, 0, 0, 0, false, false),
        Latch(4016, Halt, 0, 0, 0, 0, 0, 0, 0, 0, false, true)]);
    var s4 := Decode(s3);
    assert s4 == s3.(
      stage := [
        Latch(4016, Halt, 0, 0, 0, 0, 0, 0, 0, 0, false, true),
        Latch(4016, Halt, 0, 0, 0, 0, 0, 0, 0, 0, false, true),
        Latch(4016, Halt, 0, 0, 0, 0, 0, 0, 0, 0, false, true),
        Latch(4016, Halt, 0, 0, 0, 0, 0, 0, 0, 0, false, false),
        Latch(4016, Halt, 0, 0, 0, 0, 0, 0, 0, 0, false, true)]);
  }

  /** From each state of the trace, the rest of the run reaches the last one. */
  lemma RunFrom8()
    ensures Run(Stale8, 1) == RunResult(Completed, Stale9)
  {
    Tick9();
    RunTick(Stale8, 1);
  }

  lemma RunFrom7()
    ensures Run(Stale7, 2) == RunResult(Completed, Stale9)
  {
    Tick8();
    RunTick(Stale7, 2);
    RunFrom8();
  }

  lemma RunFrom6()
    ensures Run(Stale6, 3) == RunResult(Completed, Stale9)
  {
    Tick7();
    RunTick(Stale6, 3);
    RunFrom7();
  }

  lemma RunFrom5()
    ensures Run(Stale5, 4) == RunResult(Completed, Stale9)
  {
    Tick6();
    RunTick(Stale5, 4);
    RunFrom6();
  }

  lemma RunFrom4()
    ensures Run(Stale4, 5) == RunResult(Completed, Stale9)
  {
    Tick5();
    RunTick(Stale4, 5);
    RunFrom5();
  }

  lemma RunFrom3()
    ensures Run(Stale3, 6) == RunResult(Completed, Stale9)
  {
    Tick4();
    RunTick(Stale3, 6);
    RunFrom4();
  }

  lemma RunFrom2()
    ensures Run(Stale2, 7) == RunResult(Completed, Stale9)
  {
    Tick3();
    RunTick(Stale2, 7);
    RunFrom3();
  }

  lemma RunFrom1()
    ensures Run(Stale1, 8) == RunResult(Completed, Stale9)
  {
    Tick2();
    RunTick(Stale1, 8);
    RunFrom2();
  }

  lemma RunFrom0()
    ensures Run(Stale0, 9) == RunResult(Completed, Stale9)
  {
    Tick1();
    RunTick(Stale0, 9);
    RunFrom1();
  }

  /** The last state of the trace. */
  lemma Final()
    ensures Stale9.insCompleted == 5 && Stale9.clock == 9 &&
            Stale9.dataMemory[0] == 5 && Stale9.dataMemory[10] == 0 && Stale9.regs[3] == 5
  {
  }

  /** The STORE writes 5 to word 0, not word 10, and the LOAD reads word 0. */
  lemma Completes()
    ensures var r := Run(Init(Program), 9);
      r.reason == Completed && r.final.insCompleted == 5 && r.final.clock == 9 &&
      r.final.dataMemory[0] == 5 && r.final.dataMemory[10] == 0 && r.final.regs[3] == 5
  {
    RunFrom0();
    Final();
  }
}
