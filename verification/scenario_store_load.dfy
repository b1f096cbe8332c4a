/** A STORE and a LOAD through the same address. The ADD in front waits in
    decode until both MOVC have written back, so by the time the STORE is
    decoded its registers hold their new values. */
module StoreLoadScenario {
  import opened Isa
  import opened Apex

  /** R0 := 5; R1 := 10; R2 := R0 + R1; mem[R1 + 0] := R0; R3 := mem[R1 + 0]; stop. */
  const Program: seq<Instruction> := [
    Instruction(Movc, 0, 0, 0, 5),  // MOVC R0, #5
    Instruction(Movc, 1, 0, 0, 10),  // MOVC R1, #10
    Instruction(Add, 2, 0, 1, 0),  // ADD R2, R0, R1
    Instruction(Store, 0, 0, 1, 0),  // STORE R0, R1, #0
    Instruction(Load, 3, 1, 0, 0),  // LOAD R3, R1, #0
    Instruction(Halt, 0, 0, 0, 0)]  // HALT

  /** The machine after each clock tick, starting from `APEX_cpu_init`. */
  const Mem0: State := Init(Program)
  const Mem1: State := Mem0.(
      pc := 4004,
      stage := [
        Latch(4000, Movc, 0, 0, 0, 5, 0, 0, 0, 0, false, false),
        Latch(4000, Movc, 0, 0, 0, 5, 0, 0, 0, 0, false, false),
        Latch(0, Unknown, 0, 0, 0, 0, 0, 0, 0, 0, true, false),
        Latch(0, Unknown, 0, 0, 0, 0, 0, 0, 0, 0, true, false),
        Latch(0, Unknown, 0, 0, 0, 0, 0, 0, 0, 0, true, false)],
      clock := 1)
  const Mem2: State := Mem1.(
      pc := 4008,
      stage := [
        Latch(4004, Movc, 1, 0, 0, 10, 0, 0, 0, 0, false, false),
        Latch(4004, Movc, 1, 0, 0, 10, 0, 0, 0, 0, false, false),
        Latch(4000, Movc, 0, 0, 0, 5, 0, 0, 0, 0, false, false),
        Latch(0, Unknown, 0, 0, 0, 0, 0, 0, 0, 0, true, false),
        Latch(0, Unknown, 0, 0, 0, 0, 0, 0, 0, 0, true, false)],
      clock := 2)
  const Mem3: State := Mem2.(
      pc := 4012,
      stage := [
        Latch(4008, Add, 2, 0, 1, 0, 0, 0, 0, 0, false, false),
        Latch(4008, Add, 2, 0, 1, 0, 0, 0, 0, 0, false, false),
        Latch(4004, Movc, 1, 0, 0, 10, 0, 0, 0, 0, false, false),
        Latch(4000, Movc, 0, 0, 0, 5, 0, 0, 5, 0, false, false),
        Latch(0, Unknown, 0, 0, 0, 0, 0, 0, 0, 0, true, false)],
      clock := 3)
  const Mem4: State := Mem3.(
      regsValid := Mem3.regsValid[2 := 1],
      stage := [
        Latch(4008, Add, 2, 0, 1, 0, 0, 0, 0, 0, false, true),
        Latch(4008, Add, 2, 0, 1, 0, 0, 0, 0, 0, false, true),
        Latch(4008, Add, 2, 0, 1, 0, 0, 0, 0, 0, false, true),
        Latch(4004, Movc, 1, 0, 0, 10, 0, 0, 10, 0, false, false),
        Latch(4000, Movc, 0, 0, 0, 5, 0, 0, 5, 0, false, false)],
      clock := 4)
  const Mem5: State := Mem4.(
      regs := Mem4.regs[0 := 5],
      regsValid := Mem4.regsValid[0 := 0],
      stage := [
        Latch(4008, Add, 2, 0, 1, 0, 0, 0, 0, 0, false, true),
        Latch(4008, Add, 2, 0, 1, 0, 0, 0, 0, 0, false, true),
        Latch(4008, Add, 2, 0, 1, 0, 0, 0, 0, 0, false, true),
        Latch(4008, Add, 2, 0, 1, 0, 0, 0, 0, 0, false, true),
        Latch(4004, Movc, 1, 0, 0, 10, 0, 0, 10, 0, false, false)],
      clock := 5,
      insCompleted := 1)
  const Mem6: State := Mem5.(
      pc := 4016,
      regs := Mem5.regs[1 := 10],
      regsValid := Mem5.regsValid[1 := 0],
      stage := [
        Latch(4012, Store, 0, 0, 1, 0, 0, 0, 0, 0, false, false),
        Latch(4012, Store, 0, 0, 1, 0, 0, 0, 0, 0, false, false),
        Latch(4008, Add, 2, 0, 1, 0, 5, 10, 0, 0, false, false),
        Latch(4008, Add, 2, 0, 1, 0, 0, 0, 0, 0, false, true),
        Latch(4008, Add, 2, 0, 1, 0, 0, 0, 0, 0, false, true)],
      clock := 6,
      insCompleted := 2)
  const Mem7: State := Mem6.(
      pc := 4020,
      stage := [
        Latch(4016, Load, 3, 1, 0, 0, 0, 0, 0, 0, false, false),
        Latch(4016, Load, 3, 1, 0, 0, 0, 0, 0, 0, false, false),
        Latch(4012, Store, 0, 0, 1, 0, 5, 10, 0, 0, false, false),
        Latch(4008, Add, 2, 0, 1, 0, 5, 10, 15, 0, false, false),
        Latch(4008, Add, 2, 0, 1, 0, 0, 0, 0, 0, false, true)],
      clock := 7)
  const Mem8: State := Mem7.(
      pc := 4024,
      regsValid := Mem7.regsValid[3 := 1],
      stage := [
        Latch(4020, Halt, 0, 0, 0, 0, 0, 0, 0, 0, false, false),
        Latch(4020, Halt, 0, 0, 0, 0, 0, 0, 0, 0, false, false),
        Latch(4016, Load, 3, 1, 0, 0, 10, 5, 0, 0, false, false),
        Latch(4012, Store, 0, 0, 1, 0, 5, 10, 0, 10, false, false),
        Latch(4008, Add, 2, 0, 1, 0, 5, 10, 15, 0, false, false)],
      clock := 8)
  const Mem9: State := Mem8.(
      regs := Mem8.regs[2 := 15],
      regsValid := Mem8.regsValid[2 := 0],
      stage := [
        Latch(4020, Halt, 0, 0, 0, 0, 0, 0, 0, 0, false, true),
        Latch(4020, Halt, 0, 0, 0, 0, 0, 0, 0, 0, false, true),
        Latch(4020, Halt, 0, 0, 0, 0, 0, 0, 0, 0, false, false),
        Latch(4016, Load, 3, 1, 0, 0, 10, 5, 0, 10, false, false),
        Latch(4012, Store, 0, 0, 1, 0, 5, 10, 0, 10, false, false)],
      dataMemory := Mem8.dataMemory[10 := 5],
      clock := 9,
      insCompleted := 3)
  const Mem10: State := Mem9.(
      stage := [
        Latch(4020, Halt, 0, 0, 0, 0, 0, 0, 0, 0, false, true),
        Latch(4020, Halt, 0, 0, 0, 0, 0, 0, 0, 0, false, true),
        Latch(4020, Halt, 0, 0, 0, 0, 0, 0, 0, 0, false, true),
        Latch(4020, Halt, 0, 0, 0, 0, 0, 0, 0, 0, false, false),
        Latch(4016, Load, 3, 1, 0, 0, 10, 5, 5, 10, false, false)],
      clock := 10,
      insCompleted := 4)
  const Mem11: State := Mem10.(
      regs := Mem10.regs[3 := 5],
      regsValid := Mem10.regsValid[3 := 0],
      stage := [
        Latch(4020, Halt, 0, 0, 0, 0, 0, 0, 0, 0, false, true),
        Latch(4020, Halt, 0, 0, 0, 0, 0, 0, 0, 0, false, true),
        Latch(4020, Halt, 0, 0, 0, 0, 0, 0, 0, 0, false, false),
        Latch(4020, Halt, 0, 0, 0, 0, 0, 0, 0, 0, false, true),
        Latch(4020, Halt, 0, 0, 0, 0, 0, 0, 0, 0, false, false)],
      clock := 11,
      insCompleted := 5)
  const Mem12: State := Mem11.(
      stage := [
        Latch(4020, Halt, 0, 0, 0, 0, 0, 0, 0, 0, false, true),
        Latch(4020, Halt, 0, 0, 0, 0, 0, 0, 0, 0, false, true),
        Latch(4020, Halt, 0, 0, 0, 0, 0, 0, 0, 0, false, true),
        Latch(4020, Halt, 0, 0, 0, 0, 0, 0, 0, 0, false, false),
        Latch(4020, Halt, 0, 0, 0, 0, 0, 0, 0, 0, false, true)],
      clock := 12,
      insCompleted := 6)

  /** Each tick, stage by stage: the state after writeback, memory,
      execute and decode; fetch and the clock then give the next state. */
  lemma Tick1()
    ensures TickDefined(Mem0) && Tick(Mem0) == Mem1
  {
    var s1 := Writeback(Mem0);
    assert s1 == Mem0;
    var s2 := Memory(s1);
    assert s2 == s1;
    var s3 := Execute(s2);
    assert s3 == s2;
    var s4 := Decode(s3);
    assert s4 == s3;
  }

  lemma Tick2()
    ensures TickDefined(Mem1) && Tick(Mem1) == Mem2
  {
    var s1 := Writeback(Mem1);
    assert s1 == Mem1;
    var s2 := Memory(s1);
    assert s2 == s1;
    var s3 := Execute(s2);
    assert s3 == s2;
    var s4 := Decode(s3);
    assert s4 == s3.(
      stage := [
        Latch(4000, Movc, 0, 0, 0, 5, 0, 0, 0, 0, false, false),
        Latch(4000, Movc, 0, 0, 0, 5, 0, 0, 0, 0, false, false),
        Latch(4000, Movc, 0, 0, 0, 5, 0, 0, 0, 0, false, false),
        Latch(0, Unknown, 0, 0, 0, 0, 0, 0, 0, 0, true, false),
        Latch(0, Unknown, 0, 0, 0, 0, 0, 0, 0, 0, true, false)]);
  }

  lemma Tick3()
    ensures TickDefined(Mem2) && Tick(Mem2) == Mem3
  {
    var s1 := Writeback(Mem2);
    assert s1 == Mem2;
    var s2 := Memory(s1);
    assert s2 == s1;
    var s3 := Execute(s2);
    assert s3 == s2.(
      stage := [
        Latch(4004, Movc, 1, 0, 0, 10, 0, 0, 0, 0, false, false),
        Latch(4004, Movc, 1, 0, 0, 10, 0, 0, 0, 0, false, false),
        Latch(4000, Movc, 0, 0, 0, 5, 0, 0, 5, 0, false, false),
        Latch(4000, Movc, 0, 0, 0, 5, 0, 0, 5, 0, false, false),
        Latch(0, Unknown, 0, 0, 0, 0, 0, 0, 0, 0, true, false)]);
    var s4 := Decode(s3);
    assert s4 == s3.(
      stage := [
        Latch(4004, Movc, 1, 0, 0, 10, 0, 0, 0, 0, false, false),
        Latch(4004, Movc, 1, 0, 0, 10, 0, 0, 0, 0, false, false),
        Latch(4004, Movc, 1, 0, 0, 10, 0, 0, 0, 0, false, false),
        Latch(4000, Movc, 0, 0, 0, 5, 0, 0, 5, 0, false, false),
        Latch(0, Unknown, 0, 0, 0, 0, 0, 0, 0, 0, true, false)]);
  }

  lemma Tick4()
    ensures TickDefined(Mem3) && Tick(Mem3) == Mem4
  {
    var s1 := Writeback(Mem3);
    assert s1 == Mem3;
    var s2 := Memory(s1);
    assert s2 == s1.(
      stage := [
        Latch(4008, Add, 2, 0, 1, 0, 0, 0, 0, 0, false, false),
        Latch(4008, Add, 2, 0, 1, 0, 0, 0, 0, 0, false, false),
        Latch(4004, Movc, 1, 0, 0, 10, 0, 0, 0, 0, false, false),
        Latch(4000, Movc, 0, 0, 0, 5, 0, 0, 5, 0, false, false),
        Latch(4000, Movc, 0, 0, 0, 5, 0, 0, 5, 0, false, false)]);
    var s3 := Execute(s2);
    assert s3 == s2.(
      stage := [
        Latch(4008, Add, 2, 0, 1, 0, 0, 0, 0, 0, false, false),
        Latch(4008, Add, 2, 0, 1, 0, 0, 0, 0, 0, false, false),
        Latch(4004, Movc, 1, 0, 0, 10, 0, 0, 10, 0, false, false),
        Latch(4004, Movc, 1, 0, 0, 10, 0, 0, 10, 0, false, false),
        Latch(4000, Movc, 0, 0, 0, 5, 0, 0, 5, 0, false, false)]);
    var s4 := Decode(s3);
    assert s4 == s3.(
      regsValid := s3.regsValid[2 := 1],
      stage := [
        Latch(4008, Add, 2, 0, 1, 0, 0, 0, 0, 0, false, true),
        Latch(4008, Add, 2, 0, 1, 0, 0, 0, 0, 0, false, true),
        Latch(4008, Add, 2, 0, 1, 0, 0, 0, 0, 0, false, true),
        Latch(4004, Movc, 1, 0, 0, 10, 0, 0, 10, 0, false, false),
        Latch(4000, Movc, 0, 0, 0, 5, 0, 0, 5, 0, false, false)]);
  }

  lemma Tick5()
    ensures TickDefined(Mem4) && Tick(Mem4) == Mem5
  {
    var s1 := Writeback(Mem4);
    assert s1 == Mem4.(
      regs := Mem4.regs[0 := 5],
      regsValid := Mem4.regsValid[0 := 0],
      stage := [
        Latch(4008, Add, 2, 0, 1, 0, 0, 0, 0, 0, false, false),
        Latch(4008, Add, 2, 0, 1, 0, 0, 0, 0, 0, false, false),
        Latch(4008, Add, 2, 0, 1, 0, 0, 0, 0, 0, false, true),
        Latch(4004, Movc, 1, 0, 0, 10, 0, 0, 10, 0, false, false),
        Latch(4000, Movc, 0, 0, 0, 5, 0, 0, 5, 0, false, false)],
      insCompleted := 1);
    var s2 := Memory(s1);
    assert s2 == s1.(
      stage := [
        Latch(4008, Add, 2, 0, 1, 0, 0, 0, 0, 0, false, false),
        Latch(4008, Add, 2, 0, 1, 0, 0, 0, 0, 0, false, false),
        Latch(4008, Add, 2, 0, 1, 0, 0, 0, 0, 0, false, true),
        Latch(4004, Movc, 1, 0, 0, 10, 0, 0, 10, 0, false, false),
        Latch(4004, Movc, 1, 0, 0, 10, 0, 0, 10, 0, false, false)]);
    var s3 := Execute(s2);
    assert s3 == s2.(
      stage := [
        Latch(4008, Add, 2, 0, 1, 0, 0, 0, 0, 0, false, false),
        Latch(4008, Add, 2, 0, 1, 0, 0, 0, 0, 0, false, false),
        Latch(4008, Add, 2, 0, 1, 0, 0, 0, 0, 0, false, true),
        Latch(4008, Add, 2, 0, 1, 0, 0, 0, 0, 0, false, true),
        Latch(4004, Movc, 1, 0, 0, 10, 0, 0, 10, 0, false, false)]);
    var s4 := Decode(s3);
    assert s4 == s3.(
      stage := [
        Latch(4008, Add, 2, 0, 1, 0, 0, 0, 0, 0, false, true),
        Latch(4008, Add, 2, 0, 1, 0, 0, 0, 0, 0, false, true),
        Latch(4008, Add, 2, 0, 1, 0, 0, 0, 0, 0, false, true),
        Latch(4008, Add, 2, 0, 1, 0, 0, 0, 0, 0, false, true),
        Latch(4004, Movc, 1, 0, 0, 10, 0, 0, 10, 0, false, false)]);
  }

  lemma Tick6()
    ensures TickDefined(Mem5) && Tick(Mem5) == Mem6
  {
    var s1 := Writeback(Mem5);
    assert s1 == Mem5.(
      regs := Mem5.regs[1 := 10],
      regsValid := Mem5.regsValid[1 := 0],
      stage := [
        Latch(4008, Add, 2, 0, 1, 0, 0, 0, 0, 0, false, false),
        Latch(4008, Add, 2, 0, 1, 0, 0, 0, 0, 0, false, false),
        Latch(4008, Add, 2, 0, 1, 0, 0, 0, 0, 0, false, true),
        Latch(4008, Add, 2, 0, 1, 0, 0, 0, 0, 0, false, true),
        Latch(4004, Movc, 1, 0, 0, 10, 0, 0, 10, 0, false, false)],
      insCompleted := 2);
    var s2 := Memory(s1);
    assert s2 == s1.(
      stage := [
        Latch(4008, Add, 2, 0, 1, 0, 0, 0, 0, 0, false, false),
        Latch(4008, Add, 2, 0, 1, 0, 0, 0, 0, 0, false, false),
        Latch(4008, Add, 2, 0, 1, 0, 0, 0, 0, 0, false, true),
        Latch(4008, Add, 2, 0, 1, 0, 0, 0, 0, 0, false, true),
        Latch(4008, Add, 2, 0, 1, 0, 0, 0, 0, 0, false, true)]);
    var s3 := Execute(s2);
    assert s3 == s2;
    var s4 := Decode(s3);
    assert s4 == s3.(
      stage := [
        Latch(4008, Add, 2, 0, 1, 0, 0, 0, 0, 0, false, false),
        Latch(4008, Add, 2, 0, 1, 0, 5, 10, 0, 0, false, false),
        Latch(4008, Add, 2, 0, 1, 0, 5, 10, 0, 0, false, false),
        Latch(4008, Add, 2, 0, 1, 0, 0, 0, 0, 0, false, true),
        Latch(4008, Add, 2, 0, 1, 0, 0, 0, 0, 0, false, true)]);
  }

  lemma Tick7()
    ensures TickDefined(Mem6) && Tick(Mem6) == Mem7
  {
    var s1 := Writeback(Mem6);
    assert s1 == Mem6;
    var s2 := Memory(s1);
    assert s2 == s1;
    var s3 := Execute(s2);
    assert s3 == s2.(
      stage := [
        Latch(4012, Store, 0, 0, 1, 0, 0, 0, 0, 0, false, false),
        Latch(4012, Store, 0, 0, 1, 0, 0, 0, 0, 0, false, false),
        Latch(4008, Add, 2, 0, 1, 0, 5, 10, 15, 0, false, false),
        Latch(4008, Add, 2, 0, 1, 0, 5, 10, 15, 0, false, false),
        Latch(4008, Add, 2, 0, 1, 0, 0, 0, 0, 0, false, true)]);
    var s4 := Decode(s3);
    assert s4 == s3.(
      stage := [
        Latch(4012, Store, 0, 0, 1, 0, 0, 0, 0, 0, false, false),
        Latch(4012, Store, 0, 0, 1, 0, 5, 10, 0, 0, false, false),
        Latch(4012, Store, 0, 0, 1, 0, 5, 10, 0, 0, false, false),
        Latch(4008, Add, 2, 0, 1, 0, 5, 10, 15, 0, false, false),
        Latch(4008, Add, 2, 0, 1, 0, 0, 0, 0, 0, false, true)]);
  }

  lemma Tick8()
    ensures TickDefined(Mem7) && Tick(Mem7) == Mem8
  {
    var s1 := Writeback(Mem7);
    assert s1 == Mem7;
    var s2 := Memory(s1);
    assert s2 == s1.(
      stage := [
        Latch(4016, Load, 3, 1, 0, 0, 0, 0, 0, 0, false, false),
        Latch(4016, Load, 3, 1, 0, 0, 0, 0, 0, 0, false, false),
        Latch(4012, Store, 0, 0, 1, 0, 5, 10, 0, 0, false, false),
        Latch(4008, Add, 2, 0, 1, 0, 5, 10, 15, 0, false, false),
        Latch(4008, Add, 2, 0, 1, 0, 5, 10, 15, 0, false, false)]);
    var s3 := Execute(s2);
    assert s3 == s2.(
      stage := [
        Latch(4016, Load, 3, 1, 0, 0, 0, 0, 0, 0, false, false),
        Latch(4016, Load, 3, 1, 0, 0, 0, 0, 0, 0, false, false),
        Latch(4012, Store, 0, 0, 1, 0, 5, 10, 0, 10, false, false),
        Latch(4012, Store, 0, 0, 1, 0, 5, 10, 0, 10, false, false),
        Latch(4008, Add, 2, 0, 1, 0, 5, 10, 15, 0, false, false)]);
    var s4 := Decode(s3);
    assert s4 == s3.(
      regsValid := s3.regsValid[3 := 1],
      stage := [
        Latch(4016, Load, 3, 1, 0, 0, 0, 0, 0, 0, false, false),
        Latch(4016, Load, 3, 1, 0, 0, 10, 5, 0, 0, false, false),
        Latch(4016, Load, 3, 1, 0, 0, 10, 5, 0, 0, false, false),
        Latch(4012, Store, 0, 0, 1, 0, 5, 10, 0, 10, false, false),
        Latch(4008, Add, 2, 0, 1, 0, 5, 10, 15, 0, false, false)]);
  }

  lemma Tick9()
    ensures TickDefined(Mem8) && Tick(Mem8) == Mem9
  {
    var s1 := Writeback(Mem8);
    assert s1 == Mem8.(
      regs := Mem8.regs[2 := 15],
      regsValid := Mem8.regsValid[2 := 0],
      insCompleted := 3);
    var s2 := Memory(s1);
    assert s2 == s1.(
      stage := [
        Latch(4020, Halt, 0, 0, 0, 0, 0, 0, 0, 0, false, false),
        Latch(4020, Halt, 0, 0, 0, 0, 0, 0, 0, 0, false, false),
        Latch(4016, Load, 3, 1, 0, 0, 10, 5, 0, 0, false, false),
        Latch(4012, Store, 0, 0, 1, 0, 5, 10, 0, 10, false, false),
        Latch(4012, Store, 0, 0, 1, 0, 5, 10, 0, 10, false, false)],
      dataMemory := s1.dataMemory[10 := 5]);
    var s3 := Execute(s2);
    assert s3 == s2.(
      stage := [
        Latch(4020, Halt, 0, 0, 0, 0, 0, 0, 0, 0, false, false),
        Latch(4020, Halt, 0, 0, 0, 0, 0, 0, 0, 0, false, false),
        Latch(4016, Load, 3, 1, 0, 0, 10, 5, 0, 10, false, false),
        Latch(4016, Load, 3, 1, 0, 0, 10, 5, 0, 10, false, false),
        Latch(4012, Store, 0, 0, 1, 0, 5, 10, 0, 10, false, false)]);
    var s4 := Decode(s3);
    assert s4 == s3.(
      stage := [
        Latch(4020, Halt, 0, 0, 0, 0, 0, 0, 0, 0, false, true),
        Latch(4020, Halt, 0, 0, 0, 0, 0, 0, 0, 0, false, false),
        Latch(4020, Halt, 0, 0, 0, 0, 0, 0, 0, 0, false, false),
        Latch(4016, Load, 3, 1, 0, 0, 10, 5, 0, 10, false, false),
        Latch(4012, Store, 0, 0, 1, 0, 5, 10, 0, 10, false, false)]);
  }

  lemma Tick10()
    ensures TickDefined(Mem9) && Tick(Mem9) == Mem10
  {
    var s1 := Writeback(Mem9);
    assert s1 == Mem9.(
      insCompleted := 4);
    var s2 := Memory(s1);
    assert s2 == s1.(
      stage := [
        Latch(4020, Halt, 0, 0, 0, 0, 0, 0, 0, 0, false, true),
        Latch(4020, Halt, 0, 0, 0, 0, 0, 0, 0, 0, false, true),
        Latch(4020, Halt, 0, 0, 0, 0, 0, 0, 0, 0, false, false),
        Latch(4016, Load, 3, 1, 0, 0, 10, 5, 5, 10, false, false),
        Latch(4016, Load, 3, 1, 0, 0, 10, 5, 5, 10, false, false)]);
    var s3 := Execute(s2);
    assert s3 == s2.(
      stage := [
        Latch(4020, Halt, 0, 0, 0, 0, 0, 0, 0, 0, false, true),
        Latch(4020, Halt, 0, 0, 0, 0, 0, 0, 0, 0, false, true),
        Latch(4020, Halt, 0, 0, 0, 0, 0, 0, 0, 0, false, false),
        Latch(4020, Halt, 0, 0, 0, 0, 0, 0, 0, 0, false, false),
        Latch(4016, Load, 3, 1, 0, 0, 10, 5, 5, 10, false, false)]);
    var s4 := Decode(s3);
    assert s4 == s3.(
      stage := [
        Latch(4020, Halt, 0, 0, 0, 0, 0, 0, 0, 0, false, true),
        Latch(4020, Halt, 0, 0, 0, 0, 0, 0, 0, 0, false, true),
        Latch(4020, Halt, 0, 0, 0, 0, 0, 0, 0, 0, false, true),
        Latch(4020, Halt, 0, 0, 0, 0, 0, 0, 0, 0, false, false),
        Latch(4016, Load, 3, 1, 0, 0, 10, 5, 5, 10, false, false)]);
  }

  lemma Tick11()
    ensures TickDefined(Mem10) && Tick(Mem10) == Mem11
  {
    var s1 := Writeback(Mem10);
    assert s1 == Mem10.(
      regs := Mem10.regs[3 := 5],
      regsValid := Mem10.regsValid[3 := 0],
      stage := [
        Latch(4020, Halt, 0, 0, 0, 0, 0, 0, 0, 0, false, false),
        Latch(4020, Halt, 0, 0, 0, 0, 0, 0, 0, 0, false, false),
        Latch(4020, Halt, 0, 0, 0, 0, 0, 0, 0, 0, false, true),
        Latch(4020, Halt, 0, 0, 0, 0, 0, 0, 0, 0, false, false),
        Latch(4016, Load, 3, 1, 0, 0, 10, 5, 5, 10, false, false)],
      insCompleted := 5);
    var s2 := Memory(s1);
    assert s2 == s1.(
      stage := [
        Latch(4020, Halt, 0, 0, 0, 0, 0, 0, 0, 0, false, false),
        Latch(4020, Halt, 0, 0, 0, 0, 0, 0, 0, 0, false, false),
        Latch(4020, Halt, 0, 0, 0, 0, 0, 0, 0, 0, false, true),
        Latch(4020, Halt, 0, 0, 0, 0, 0, 0, 0, 0, false, false),
        Latch(4020, Halt, 0, 0, 0, 0, 0, 0, 0, 0, false, false)]);
    var s3 := Execute(s2);
    assert s3 == s2.(
      stage := [
        Latch(4020, Halt, 0, 0, 0, 0, 0, 0, 0, 0, false, false),
        Latch(4020, Halt, 0, 0, 0, 0, 0, 0, 0, 0, false, false),
        Latch(4020, Halt, 0, 0, 0, 0, 0, 0, 0, 0, false, true),
        Latch(4020, Halt, 0, 0, 0, 0, 0, 0, 0, 0, false, true),
        Latch(4020, Halt, 0, 0, 0, 0, 0, 0, 0, 0, false, false)]);
    var s4 := Decode(s3);
    assert s4 == s3.(
      stage := [
        Latch(4020, Halt, 0, 0, 0, 0, 0, 0, 0, 0, false, true),
        Latch(4020, Halt, 0, 0, 0, 0, 0, 0, 0, 0, false, false),
        Latch(4020, Halt, 0, 0, 0, 0, 0, 0, 0, 0, false, false),
        Latch(4020, Halt, 0, 0, 0, 0, 0, 0, 0, 0, false, true),
        Latch(4020, Halt, 0, 0, 0, 0, 0, 0, 0, 0, false, false)]);
  }

  lemma Tick12()
    ensures TickDefined(Mem11) && Tick(Mem11) == Mem12
  {
    var s1 := Writeback(Mem11);
    assert s1 == Mem11.(
      insCompleted := 6);
    var s2 := Memory(s1);
    assert s2 == s1.(
      stage := [
        Latch(4020, Halt, 0, 0, 0, 0, 0, 0, 0, 0, false, true),
        Latch(4020, Halt, 0, 0, 0, 0, 0, 0, 0, 0, false, true),
        Latch(4020, Halt, 0, 0, 0, 0, 0, 0, 0, 0, false, false),
        Latch(4020, Halt, 0, 0, 0, 0, 0, 0, 0, 0, false, true),
        Latch(4020, Halt, 0, 0, 0, 0, 0, 0, 0, 0, false, true)]);
    var s3 := Execute(s2);
    assert s3 == s2.(
      stage := [
        Latch(4020, Halt, 0, 0, 0, 0, 0, 0, 0, 0, false, true),
        Latch(4020, Halt, 0, 0, 0, 0, 0, 0, 0, 0, false, true),
        Latch(4020, Halt, 0, 0, 0, 0, 0, 0, 0, 0, false, false),
        Latch(4020, Halt, 0, 0, 0, 0, 0, 0, 0, 0, false, false),
        Latch(4020, Halt, 0, 0, 0, 0, 0, 0, 0, 0, false, true)]);
    var s4 := Decode(s3);
    assert s4 == s3.(
      stage := [
        Latch(4020, Halt, 0, 0, 0, 0, 0, 0, 0, 0, false, true),
        Latch(4020, Halt, 0, 0, 0, 0, 0, 0, 0, 0, false, true),
        Latch(4020, Halt, 0, 0, 0, 0, 0, 0, 0, 0, false, true),
        Latch(4020, Halt, 0, 0, 0, 0, 0, 0, 0, 0, false, false),
        Latch(4020, Halt, 0, 0, 0, 0, 0, 0, 0, 0, false, true)]);
  }

  /** From each state of the trace, the rest of the run reaches the last one. */
  lemma RunFrom11()
    ensures Run(Mem11, 1) == RunResult(Completed, Mem12)
  {
    Tick12();
    RunTick(Mem11, 1);
  }

  lemma RunFrom10()
    ensures Run(Mem10, 2) == RunResult(Completed, Mem12)
  {
    Tick11();
    RunTick(Mem10, 2);
    RunFrom11();
  }

  lemma RunFrom9()
    ensures Run(Mem9, 3) == RunResult(Completed, Mem12)
  {
    Tick10();
    RunTick(Mem9, 3);
    RunFrom10();
  }

  lemma RunFrom8()
    ensures Run(Mem8, 4) == RunResult(Completed, Mem12)
  {
    Tick9();
    RunTick(Mem8, 4);
    RunFrom9();
  }

  lemma RunFrom7()
    ensures Run(Mem7, 5) == RunResult(Completed, Mem12)
  {
    Tick8();
    RunTick(Mem7, 5);
    RunFrom8();
  }

  lemma RunFrom6()
    ensures Run(Mem6, 6) == RunResult(Completed, Mem12)
  {
    Tick7();
    RunTick(Mem6, 6);
    RunFrom7();
  }

  lemma RunFrom5()
    ensures Run(Mem5, 7) == RunResult(Completed, Mem12)
  {
    Tick6();
    RunTick(Mem5, 7);
    RunFrom6();
  }

  lemma RunFrom4()
    ensures Run(Mem4, 8) == RunResult(Completed, Mem12)
  {
    Tick5();
    RunTick(Mem4, 8);
    RunFrom5();
  }

  lemma RunFrom3()
    ensures Run(Mem3, 9) == RunResult(Completed, Mem12)
  {
    Tick4();
    RunTick(Mem3, 9);
    RunFrom4();
  }

  lemma RunFrom2()
    ensures Run(Mem2, 10) == RunResult(Completed, Mem12)
  {
    Tick3();
    RunTick(Mem2, 10);
    RunFrom3();
  }

  lemma RunFrom1()
    ensures Run(Mem1, 11) == RunResult(Completed, Mem12)
  {
    Tick2();
    RunTick(Mem1, 11);
    RunFrom2();
  }

  lemma RunFrom0()
    ensures Run(Mem0, 12) == RunResult(Completed, Mem12)
  {
    Tick1();
    RunTick(Mem0, 12);
    RunFrom1();
  }

  /** The last state of the trace. */
  lemma Final()
    ensures Mem12.insCompleted == 6 && Mem12.clock == 12 &&
            Mem12.dataMemory[10] == 5 && Mem12.regs[3] == 5 && Mem12.regs[2] == 15
  {
  }

  /** Word 10 of data memory receives 5 and the LOAD returns it into R3. */
  lemma Completes()
    ensures var r := Run(Init(Program), 12);
      r.reason == Completed && r.final.insCompleted == 6 && r.final.clock == 12 &&
      r.final.dataMemory[10] == 5 && r.final.regs[3] == 5 && r.final.regs[2] == 15
  {
    RunFrom0();
    Final();
  }
}
