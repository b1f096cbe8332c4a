/** A complete run of a four-instruction program, tick by tick: two MOVC,
    an ADD that waits in decode for both of them, and HALT. */
module AddScenario {
  import opened Isa
  import opened Apex

  /** R0 := 3; R1 := 4; R2 := R0 + R1; stop. */
  const Program: seq<Instruction> := [
    Instruction(Movc, 0, 0, 0, 3),  // MOVC R0, #3
    Instruction(Movc, 1, 0, 0, 4),  // MOVC R1, #4
    Instruction(Add, 2, 0, 1, 0),  // ADD R2, R0, R1
    Instruction(Halt, 0, 0, 0, 0)]  // HALT

  /** The machine after each clock tick, starting from `APEX_cpu_init`. */
  const Add0: State := Init(Program)
  const Add1: State := Add0.(
      pc := 4004,
      stage := [
        Latch(4000, Movc, 0, 0, 0, 3, 0, 0, 0, 0, false, false),
        Latch(4000, Movc, 0, 0, 0, 3, 0, 0, 0, 0, false, false),
        Latch(0, Unknown, 0, 0, 0, 0, 0, 0, 0, 0, true, false),
        Latch(0, Unknown, 0, 0, 0, 0, 0, 0, 0, 0, true, false),
        Latch(0, Unknown, 0, 0, 0, 0, 0, 0, 0, 0, true, false)],
      clock := 1)
  const Add2: State := Add1.(
      pc := 4008,
      stage := [
        Latch(4004, Movc, 1, 0, 0, 4, 0, 0, 0, 0, false, false),
        Latch(4004, Movc, 1, 0, 0, 4, 0, 0, 0, 0, false, false),
        Latch(4000, Movc, 0, 0, 0, 3, 0, 0, 0, 0, false, false),
        Latch(0, Unknown, 0, 0, 0, 0, 0, 0, 0, 0, true, false),
        Latch(0, Unknown, 0, 0, 0, 0, 0, 0, 0, 0, true, false)],
      clock := 2)
  const Add3: State := Add2.(
      pc := 4012,
      stage := [
        Latch(4008, Add, 2, 0, 1, 0, 0, 0, 0, 0, false, false),
        Latch(4008, Add, 2, 0, 1, 0, 0, 0, 0, 0, false, false),
        Latch(4004, Movc, 1, 0, 0, 4, 0, 0, 0, 0, false, false),
        Latch(4000, Movc, 0, 0, 0, 3, 0, 0, 3, 0, false, false),
        Latch(0, Unknown, 0, 0, 0, 0, 0, 0, 0, 0, true, false)],
      clock := 3)
  const Add4: State := Add3.(
      regsValid := Add3.regsValid[2 := 1],
      stage := [
        Latch(4008, Add, 2, 0, 1, 0, 0, 0, 0, 0, false, true),
        Latch(4008, Add, 2, 0, 1, 0, 0, 0, 0, 0, false, true),
        Latch(4008, Add, 2, 0, 1, 0, 0, 0, 0, 0, false, true),
        Latch(4004, Movc, 1, 0, 0, 4, 0, 0, 4, 0, false, false),
        Latch(4000, Movc, 0, 0, 0, 3, 0, 0, 3, 0, false, false)],
      clock := 4)
  const Add5: State := Add4.(
      regs := Add4.regs[0 := 3],
      regsValid := Add4.regsValid[0 := 0],
      stage := [
        Latch(4008, Add, 2, 0, 1, 0, 0, 0, 0, 0, false, true),
        Latch(4008, Add, 2, 0, 1, 0, 0, 0, 0, 0, false, true),
        Latch(4008, Add, 2, 0, 1, 0, 0, 0, 0, 0, false, true),
        Latch(4008, Add, 2, 0, 1, 0, 0, 0, 0, 0, false, true),
        Latch(4004, Movc, 1, 0, 0, 4, 0, 0, 4, 0, false, false)],
      clock := 5,
      insCompleted := 1)
  const Add6: State := Add5.(
      pc := 4016,
      regs := Add5.regs[1 := 4],
      regsValid := Add5.regsValid[1 := 0],
      stage := [
        Latch(4012, Halt, 0, 0, 0, 0, 0, 0, 0, 0, false, false),
        Latch(4012, Halt, 0, 0, 0, 0, 0, 0, 0, 0, false, false),
        Latch(4008, Add, 2, 0, 1, 0, 3, 4, 0, 0, false, false),
        Latch(4008, Add, 2, 0, 1, 0, 0, 0, 0, 0, false, true),
        Latch(4008, Add, 2, 0, 1, 0, 0, 0, 0, 0, false, true)],
      clock := 6,
      insCompleted := 2)
  const Add7: State := Add6.(
      stage := [
        Latch(4012, Halt, 0, 0, 0, 0, 0, 0, 0, 0, false, true),
        Latch(4012, Halt, 0, 0, 0, 0, 0, 0, 0, 0, false, true),
        Latch(4012, Halt, 0, 0, 0, 0, 0, 0, 0, 0, false, false),
        Latch(4008, Add, 2, 0, 1, 0, 3, 4, 7, 0, false, false),
        Latch(4008, Add, 2, 0, 1, 0, 0, 0, 0, 0, false, true)],
      clock := 7)
  const Add8: State := Add7.(
      stage := [
        Latch(4012, Halt, 0, 0, 0, 0, 0, 0, 0, 0, false, true),
        Latch(4012, Halt, 0, 0, 0, 0, 0, 0, 0, 0, false, true),
        Latch(4012, Halt, 0, 0, 0, 0, 0, 0, 0, 0, false, true),
        Latch(4012, Halt, 0, 0, 0, 0, 0, 0, 0, 0, false, false),
        Latch(4008, Add, 2, 0, 1, 0, 3, 4, 7, 0, false, false)],
      clock := 8)
  const Add9: State := Add8.(
      regs := Add8.regs[2 := 7],
      regsValid := Add8.regsValid[2 := 0],
      stage := [
        Latch(4012, Halt, 0, 0, 0, 0, 0, 0, 0, 0, false, true),
        Latch(4012, Halt, 0, 0, 0, 0, 0, 0, 0, 0, false, true),
        Latch(4012, Halt, 0, 0, 0, 0, 0, 0, 0, 0, false, false),
        Latch(4012, Halt, 0, 0, 0, 0, 0, 0, 0, 0, false, true),
        Latch(4012, Halt, 0, 0, 0, 0, 0, 0, 0, 0, false, false)],
      clock := 9,
      insCompleted := 3)
  const Add10: State := Add9.(
      stage := [
        Latch(4012, Halt, 0, 0, 0, 0, 0, 0, 0, 0, false, true),
        Latch(4012, Halt, 0, 0, 0, 0, 0, 0, 0, 0, false, true),
        Latch(4012, Halt, 0, 0, 0, 0, 0, 0, 0, 0, false, true),
        Latch(4012, Halt, 0, 0, 0, 0, 0, 0, 0, 0, false, false),
        Latch(4012, Halt, 0, 0, 0, 0, 0, 0, 0, 0, false, true)],
      clock := 10,
      insCompleted := 4)

  /** Each tick, stage by stage: the state after writeback, memory,
      execute and decode; fetch and the clock then give the next state. */
  lemma Tick1()
    ensures TickDefined(Add0) && Tick(Add0) == Add1
  {
    var s1 := Writeback(Add0);
    assert s1 == Add0;
    var s2 := Memory(s1);
    assert s2 == s1;
    var s3 := Execute(s2);
    assert s3 == s2;
    var s4 := Decode(s3);
    assert s4 == s3;
  }

  lemma Tick2()
    ensures TickDefined(Add1) && Tick(Add1) == Add2
  {
    var s1 := Writeback(Add1);
    assert s1 == Add1;
    var s2 := Memory(s1);
    assert s2 == s1;
    var s3 := Execute(s2);
    assert s3 == s2;
    var s4 := Decode(s3);
    assert s4 == s3.(
      stage := [
        Latch(4000, Movc, 0, 0, 0, 3, 0, 0, 0, 0, false, false),
        Latch(4000, Movc, 0, 0, 0, 3, 0, 0, 0, 0, false, false),
        Latch(4000, Movc, 0, 0, 0, 3, 0, 0, 0, 0, false, false),
        Latch(0, Unknown, 0, 0, 0, 0, 0, 0, 0, 0, true, false),
        Latch(0, Unknown, 0, 0, 0, 0, 0, 0, 0, 0, true, false)]);
  }

  lemma Tick3()
    ensures TickDefined(Add2) && Tick(Add2) == Add3
  {
    var s1 := Writeback(Add2);
    assert s1 == Add2;
    var s2 := Memory(s1);
    assert s2 == s1;
    var s3 := Execute(s2);
    assert s3 == s2.(
      stage := [
        Latch(4004, Movc, 1, 0, 0, 4, 0, 0, 0, 0, false, false),
        Latch(4004, Movc, 1, 0, 0, 4, 0, 0, 0, 0, false, false),
        Latch(4000, Movc, 0, 0, 0, 3, 0, 0, 3, 0, false, false),
        Latch(4000, Movc, 0, 0, 0, 3, 0, 0, 3, 0, false, false),
        Latch(0, Unknown, 0, 0, 0, 0, 0, 0, 0, 0, true, false)]);
    var s4 := Decode(s3);
    assert s4 == s3.(
      stage := [
        Latch(4004, Movc, 1, 0, 0, 4, 0, 0, 0, 0, false, false),
        Latch(4004, Movc, 1, 0, 0, 4, 0, 0, 0, 0, false, false),
        Latch(4004, Movc, 1, 0, 0, 4, 0, 0, 0, 0, false, false),
        Latch(4000, Movc, 0, 0, 0, 3, 0, 0, 3, 0, false, false),
        Latch(0, Unknown, 0, 0, 0, 0, 0, 0, 0, 0, true, false)]);
  }

  lemma Tick4()
    ensures TickDefined(Add3) && Tick(Add3) == Add4
  {
    var s1 := Writeback(Add3);
    assert s1 == Add3;
    var s2 := Memory(s1);
    assert s2 == s1.(
      stage := [
        Latch(4008, Add, 2, 0, 1, 0, 0, 0, 0, 0, false, false),
        Latch(4008, Add, 2, 0, 1, 0, 0, 0, 0, 0, false, false),
        Latch(4004, Movc, 1, 0, 0, 4, 0, 0, 0, 0, false, false),
        Latch(4000, Movc, 0, 0, 0, 3, 0, 0, 3, 0, false, false),
        Latch(4000, Movc, 0, 0, 0, 3, 0, 0, 3, 0, false, false)]);
    var s3 := Execute(s2);
    assert s3 == s2.(
      stage := [
        Latch(4008, Add, 2, 0, 1, 0, 0, 0, 0, 0, false, false),
        Latch(4008, Add, 2, 0, 1, 0, 0, 0, 0, 0, false, false),
        Latch(4004, Movc, 1, 0, 0, 4, 0, 0, 4, 0, false, false),
        Latch(4004, Movc, 1, 0, 0, 4, 0, 0, 4, 0, false, false),
        Latch(4000, Movc, 0, 0, 0, 3, 0, 0, 3, 0, false, false)]);
    var s4 := Decode(s3);
    assert s4 == s3.(
      regsValid := s3.regsValid[2 := 1],
      stage := [
        Latch(4008, Add, 2, 0, 1, 0, 0, 0, 0, 0, false, true),
        Latch(4008, Add, 2, 0, 1, 0, 0, 0, 0, 0, false, true),
        Latch(4008, Add, 2, 0, 1, 0, 0, 0, 0, 0, false, true),
        Latch(4004, Movc, 1, 0, 0, 4, 0, 0, 4, 0, false, false),
        Latch(4000, Movc, 0, 0, 0, 3, 0, 0, 3, 0, false, false)]);
  }

  lemma Tick5()
    ensures TickDefined(Add4) && Tick(Add4) == Add5
  {
    var s1 := Writeback(Add4);
    assert s1 == Add4.(
      regs := Add4.regs[0 := 3],
      regsValid := Add4.regsValid[0 := 0],
      stage := [
        Latch(4008, Add, 2, 0, 1, 0, 0, 0, 0, 0, false, false),
        Latch(4008, Add, 2, 0, 1, 0, 0, 0, 0, 0, false, false),
        Latch(4008, Add, 2, 0, 1, 0, 0, 0, 0, 0, false, true),
        Latch(4004, Movc, 1, 0, 0, 4, 0, 0, 4, 0, false, false),
        Latch(4000, Movc, 0, 0, 0, 3, 0, 0, 3, 0, false, false)],
      insCompleted := 1);
    var s2 := Memory(s1);
    assert s2 == s1.(
      stage := [
        Latch(4008, Add, 2, 0, 1, 0, 0, 0, 0, 0, false, false),
        Latch(4008, Add, 2, 0, 1, 0, 0, 0, 0, 0, false, false),
        Latch(4008, Add, 2, 0, 1, 0, 0, 0, 0, 0, false, true),
        Latch(4004, Movc, 1, 0, 0, 4, 0, 0, 4, 0, false, false),
        Latch(4004, Movc, 1, 0, 0, 4, 0, 0, 4, 0, false, false)]);
    var s3 := Execute(s2);
    assert s3 == s2.(
      stage := [
        Latch(4008, Add, 2, 0, 1, 0, 0, 0, 0, 0, false, false),
        Latch(4008, Add, 2, 0, 1, 0, 0, 0, 0, 0, false, false),
        Latch(4008, Add, 2, 0, 1, 0, 0, 0, 0, 0, false, true),
        Latch(4008, Add, 2, 0, 1, 0, 0, 0, 0, 0, false, true),
        Latch(4004, Movc, 1, 0, 0, 4, 0, 0, 4, 0, false, false)]);
    var s4 := Decode(s3);
    assert s4 == s3.(
      stage := [
        Latch(4008, Add, 2, 0, 1, 0, 0, 0, 0, 0, false, true),
        Latch(4008, Add, 2, 0, 1, 0, 0, 0, 0, 0, false, true),
        Latch(4008, Add, 2, 0, 1, 0, 0, 0, 0, 0, false, true),
        Latch(4008, Add, 2, 0, 1, 0, 0, 0, 0, 0, false, true),
        Latch(4004, Movc, 1, 0, 0, 4, 0, 0, 4, 0, false, false)]);
  }

  lemma Tick6()
    ensures TickDefined(Add5) && Tick(Add5) == Add6
  {
    var s1 := Writeback(Add5);
    assert s1 == Add5.(
      regs := Add5.regs[1 := 4],
      regsValid := Add5.regsValid[1 := 0],
      stage := [
        Latch(4008, Add, 2, 0, 1, 0, 0, 0, 0, 0, false, false),
        Latch(4008, Add, 2, 0, 1, 0, 0, 0, 0, 0, false, false),
        Latch(4008, Add, 2, 0, 1, 0, 0, 0, 0, 0, false, true),
        Latch(4008, Add, 2, 0, 1, 0, 0, 0, 0, 0, false, true),
        Latch(4004, Movc, 1, 0, 0, 4, 0, 0, 4, 0, false, false)],
      insCompleted := 2);
    var s2 := Memory(s1);
    assert s2 == s1.(
      stage := [
        Latch(4008, Add, 2, 0, 1, 0, 0, 0, 0, 0, false, false),
        Latch(4008, Add, 2, 0, 1, 0, 0, 0, 0, 0, false, false),
        Latch(4008, Add, 2, 0, 1, 0, 0, 0, 0, 0, false, true),
        Latch(4008, Add, 2, 0, 1, 0, 0, 0, 0, 0, false, true),
        Latch(4008, Add, 2, 0, 1, 0, 0, 0, 0, 0, false, true)]);
    var s3 := Execute(s2);
    assert s3 == s2;
    var s4 := Decode(s3);
    assert s4 == s3.(
      stage := [
        Latch(4008, Add, 2, 0, 1, 0, 0, 0, 0, 0, false, false),
        Latch(4008, Add, 2, 0, 1, 0, 3, 4, 0, 0, false, false),
        Latch(4008, Add, 2, 0, 1, 0, 3, 4, 0, 0, false, false),
        Latch(4008, Add, 2, 0, 1, 0, 0, 0, 0, 0, false, true),
        Latch(4008, Add, 2, 0, 1, 0, 0, 0, 0, 0, false, true)]);
  }

  lemma Tick7()
    ensures TickDefined(Add6) && Tick(Add6) == Add7
  {
    var s1 := Writeback(Add6);
    assert s1 == Add6;
    var s2 := Memory(s1);
    assert s2 == s1;
    var s3 := Execute(s2);
    assert s3 == s2.(
      stage := [
        Latch(4012, Halt, 0, 0, 0, 0, 0, 0, 0, 0, false, false),
        Latch(4012, Halt, 0, 0, 0, 0, 0, 0, 0, 0, false, false),
        Latch(4008, Add, 2, 0, 1, 0, 3, 4, 7, 0, false, false),
        Latch(4008, Add, 2, 0, 1, 0, 3, 4, 7, 0, false, false),
        Latch(4008, Add, 2, 0, 1, 0, 0, 0, 0, 0, false, true)]);
    var s4 := Decode(s3);
    assert s4 == s3.(
      stage := [
        Latch(4012, Halt, 0, 0, 0, 0, 0, 0, 0, 0, false, true),
        Latch(4012, Halt, 0, 0, 0, 0, 0, 0, 0, 0, false, false),
        Latch(4012, Halt, 0, 0, 0, 0, 0, 0, 0, 0, false, false),
        Latch(4008, Add, 2, 0, 1, 0, 3, 4, 7, 0, false, false),
        Latch(4008, Add, 2, 0, 1, 0, 0, 0, 0, 0, false, true)]);
  }

  lemma Tick8()
    ensures TickDefined(Add7) && Tick(Add7) == Add8
  {
    var s1 := Writeback(Add7);
    assert s1 == Add7;
    var s2 := Memory(s1);
    assert s2 == s1.(
      stage := [
        Latch(4012, Halt, 0, 0, 0, 0, 0, 0, 0, 0, false, true),
        Latch(4012, Halt, 0, 0, 0, 0, 0, 0, 0, 0, false, true),
        Latch(4012, Halt, 0, 0, 0, 0, 0, 0, 0, 0, false, false),
        Latch(4008, Add, 2, 0, 1, 0, 3, 4, 7, 0, false, false),
        Latch(4008, Add, 2, 0, 1, 0, 3, 4, 7, 0, false, false)]);
    var s3 := Execute(s2);
    assert s3 == s2.(
      stage := [
        Latch(4012, Halt, 0, 0, 0, 0, 0, 0, 0, 0, false, true),
        Latch(4012, Halt, 0, 0, 0, 0, 0, 0, 0, 0, false, true),
        Latch(4012, Halt, 0, 0, 0, 0, 0, 0, 0, 0, false, false),
        Latch(4012, Halt, 0, 0, 0, 0, 0, 0, 0, 0, false, false),
        Latch(4008, Add, 2, 0, 1, 0, 3, 4, 7, 0, false, false)]);
    var s4 := Decode(s3);
    assert s4 == s3.(
      stage := [
        Latch(4012, Halt, 0, 0, 0, 0, 0, 0, 0, 0, false, true),
        Latch(4012, Halt, 0, 0, 0, 0, 0, 0, 0, 0, false, true),
        Latch(4012, Halt, 0, 0, 0, 0, 0, 0, 0, 0, false, true),
        Latch(4012, Halt, 0, 0, 0, 0, 0, 0, 0, 0, false, false),
        Latch(4008, Add, 2, 0, 1, 0, 3, 4, 7, 0, false, false)]);
  }

  lemma Tick9()
    ensures TickDefined(Add8) && Tick(Add8) == Add9
  {
    var s1 := Writeback(Add8);
    assert s1 == Add8.(
      regs := Add8.regs[2 := 7],
      regsValid := Add8.regsValid[2 := 0],
      stage := [
        Latch(4012, Halt, 0, 0, 0, 0, 0, 0, 0, 0, false, false),
        Latch(4012, Halt, 0, 0, 0, 0, 0, 0, 0, 0, false, false),
        Latch(4012, Halt, 0, 0, 0, 0, 0, 0, 0, 0, false, true),
        Latch(4012, Halt, 0, 0, 0, 0, 0, 0, 0, 0, false, false),
        Latch(4008, Add, 2, 0, 1, 0, 3, 4, 7, 0, false, false)],
      insCompleted := 3);
    var s2 := Memory(s1);
    assert s2 == s1.(
      stage := [
        Latch(4012, Halt, 0, 0, 0, 0, 0, 0, 0, 0, false, false),
        Latch(4012, Halt, 0, 0, 0, 0, 0, 0, 0, 0, false, false),
        Latch(4012, Halt, 0, 0, 0, 0, 0, 0, 0, 0, false, true),
        Latch(4012, Halt, 0, 0, 0, 0, 0, 0, 0, 0, false, false),
        Latch(4012, Halt, 0, 0, 0, 0, 0, 0, 0, 0, false, false)]);
    var s3 := Execute(s2);
    assert s3 == s2.(
      stage := [
        Latch(4012, Halt, 0, 0, 0, 0, 0, 0, 0, 0, false, false),
        Latch(4012, Halt, 0, 0, 0, 0, 0, 0, 0, 0, false, false),
        Latch(4012, Halt, 0, 0, 0, 0, 0, 0, 0, 0, false, true),
        Latch(4012, Halt, 0, 0, 0, 0, 0, 0, 0, 0, false, true),
        Latch(4012, Halt, 0, 0, 0, 0, 0, 0, 0, 0, false, false)]);
    var s4 := Decode(s3);
    assert s4 == s3.(
      stage := [
        Latch(4012, Halt, 0, 0, 0, 0, 0, 0, 0, 0, false, true),
        Latch(4012, Halt, 0, 0, 0, 0, 0, 0, 0, 0, false, false),
        Latch(4012, Halt, 0, 0, 0, 0, 0, 0, 0, 0, false, false),
        Latch(4012, Halt, 0, 0, 0, 0, 0, 0, 0, 0, false, true),
        Latch(4012, Halt, 0, 0, 0, 0, 0, 0, 0, 0, false, false)]);
  }

  lemma Tick10()
    ensures TickDefined(Add9) && Tick(Add9) == Add10
  {
    var s1 := Writeback(Add9);
    assert s1 == Add9.(
      insCompleted := 4);
    var s2 := Memory(s1);
    assert s2 == s1.(
      stage := [
        Latch(4012, Halt, 0, 0, 0, 0, 0, 0, 0, 0, false, true),
        Latch(4012, Halt, 0, 0, 0, 0, 0, 0, 0, 0, false, true),
        Latch(4012, Halt, 0, 0, 0, 0, 0, 0, 0, 0, false, false),
        Latch(4012, Halt, 0, 0, 0, 0, 0, 0, 0, 0, false, true),
        Latch(4012, Halt, 0, 0, 0, 0, 0, 0, 0, 0, false, true)]);
    var s3 := Execute(s2);
    assert s3 == s2.(
      stage := [
        Latch(4012, Halt, 0, 0, 0, 0, 0, 0, 0, 0, false, true),
        Latch(4012, Halt, 0, 0, 0, 0, 0, 0, 0, 0, false, true),
        Latch(4012, Halt, 0, 0, 0, 0, 0, 0, 0, 0, false, false),
        Latch(4012, Halt, 0, 0, 0, 0, 0, 0, 0, 0, false, false),
        Latch(4012, Halt, 0, 0, 0, 0, 0, 0, 0, 0, false, true)]);
    var s4 := Decode(s3);
    assert s4 == s3.(
      stage := [
        Latch(4012, Halt, 0, 0, 0, 0, 0, 0, 0, 0, false, true),
        Latch(4012, Halt, 0, 0, 0, 0, 0, 0, 0, 0, false, true),
        Latch(4012, Halt, 0, 0, 0, 0, 0, 0, 0, 0, false, true),
        Latch(4012, Halt, 0, 0, 0, 0, 0, 0, 0, 0, false, false),
        Latch(4012, Halt, 0, 0, 0, 0, 0, 0, 0, 0, false, true)]);
  }

  /** From each state of the trace, the rest of the run reaches the last one. */
  lemma RunFrom9()
    ensures Run(Add9, 1) == RunResult(Completed, Add10)
  {
    Tick10();
    RunTick(Add9, 1);
  }

  lemma RunFrom8()
    ensures Run(Add8, 2) == RunResult(Completed, Add10)
  {
    Tick9();
    RunTick(Add8, 2);
    RunFrom9();
  }

  lemma RunFrom7()
    ensures Run(Add7, 3) == RunResult(Completed, Add10)
  {
    Tick8();
    RunTick(Add7, 3);
    RunFrom8();
  }

  lemma RunFrom6()
    ensures Run(Add6, 4) == RunResult(Completed, Add10)
  {
    Tick7();
    RunTick(Add6, 4);
    RunFrom7();
  }

  lemma RunFrom5()
    ensures Run(Add5, 5) == RunResult(Completed, Add10)
  {
    Tick6();
    RunTick(Add5, 5);
    RunFrom6();
  }

  lemma RunFrom4()
    ensures Run(Add4, 6) == RunResult(Completed, Add10)
  {
    Tick5();
    RunTick(Add4, 6);
    RunFrom5();
  }

  lemma RunFrom3()
    ensures Run(Add3, 7) == RunResult(Completed, Add10)
  {
    Tick4();
    RunTick(Add3, 7);
    RunFrom4();
  }

  lemma RunFrom2()
    ensures Run(Add2, 8) == RunResult(Completed, Add10)
  {
    Tick3();
    RunTick(Add2, 8);
    RunFrom3();
  }

  lemma RunFrom1()
    ensures Run(Add1, 9) == RunResult(Completed, Add10)
  {
    Tick2();
    RunTick(Add1, 9);
    RunFrom2();
  }

  lemma RunFrom0()
    ensures Run(Add0, 10) == RunResult(Completed, Add10)
  {
    Tick1();
    RunTick(Add0, 10);
    RunFrom1();
  }

  /** The last state of the trace. */
  lemma Final()
    ensures Add10.insCompleted == 4 && Add10.clock == 10 &&
            Add10.regs[0] == 3 && Add10.regs[1] == 4 && Add10.regs[2] == 7 &&
            Add10.dataMemory == Add0.dataMemory
  {
  }

  /** After ten ticks every instruction has completed (HALT included),
      R2 holds 7, the clock reads 10 and data memory is as it started. */
  lemma Completes()
    ensures var r := Run(Init(Program), 10);
      r.reason == Completed && r.final.insCompleted == 4 && r.final.clock == 10 &&
      r.final.regs[0] == 3 && r.final.regs[1] == 4 && r.final.regs[2] == 7 &&
      r.final.dataMemory == Init(Program).dataMemory
  {
    RunFrom0();
    Final();
  }
}
