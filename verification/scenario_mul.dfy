/** The same program shape with MUL: the one extra cycle MUL spends in
    execute shows in the clock and nowhere else. */
module MulScenario {
  import opened Isa
  import opened Apex

  /** R0 := 6; R1 := 7; R2 := R0 * R1; stop. */
  const Program: seq<Instruction> := [
    Instruction(Movc, 0, 0, 0, 6),  // MOVC R0, #6
    Instruction(Movc, 1, 0, 0, 7),  // MOVC R1, #7
    Instruction(Mul, 2, 0, 1, 0),  // MUL R2, R0, R1
    Instruction(Halt, 0, 0, 0, 0)]  // HALT

  /** The machine after each clock tick, starting from `APEX_cpu_init`. */
  const Mul0: State := Init(Program)
  const Mul1: State := Mul0.(
      pc := 4004,
      stage := [
        Latch(4000, Movc, 0, 0, 0, 6, 0, 0, 0, 0, false, false),
        Latch(4000, Movc, 0, 0, 0, 6, 0, 0, 0, 0, false, false),
        Latch(0, Unknown, 0, 0, 0, 0, 0, 0, 0, 0, true, false),
        Latch(0, Unknown, 0, 0, 0, 0, 0, 0, 0, 0, true, false),
        Latch(0, Unknown, 0, 0, 0, 0, 0, 0, 0, 0, true, false)],
      clock := 1)
  const Mul2: State := Mul1.(
      pc := 4008,
      stage := [
        Latch(4004, Movc, 1, 0, 0, 7, 0, 0, 0, 0, false, false),
        Latch(4004, Movc, 1, 0, 0, 7, 0, 0, 0, 0, false, false),
        Latch(4000, Movc, 0, 0, 0, 6, 0, 0, 0, 0, false, false),
        Latch(0, Unknown, 0, 0, 0, 0, 0, 0, 0, 0, true, false),
        Latch(0, Unknown, 0, 0, 0, 0, 0, 0, 0, 0, true, false)],
      clock := 2)
  const Mul3: State := Mul2.(
      pc := 4012,
      stage := [
        Latch(4008, Mul, 2, 0, 1, 0, 0, 0, 0, 0, false, false),
        Latch(4008, Mul, 2, 0, 1, 0, 0, 0, 0, 0, false, false),
        Latch(4004, Movc, 1, 0, 0, 7, 0, 0, 0, 0, false, false),
        Latch(4000, Movc, 0, 0, 0, 6, 0, 0, 6, 0, false, false),
        Latch(0, Unknown, 0, 0, 0, 0, 0, 0, 0, 0, true, false)],
      clock := 3)
  const Mul4: State := Mul3.(
      regsValid := Mul3.regsValid[2 := 1],
      stage := [
        Latch(4008, Mul, 2, 0, 1, 0, 0, 0, 0, 0, false, true),
        Latch(4008, Mul, 2, 0, 1, 0, 0, 0, 0, 0, false, true),
        Latch(4008, Mul, 2, 0, 1, 0, 0, 0, 0, 0, false, true),
        Latch(4004, Movc, 1, 0, 0, 7, 0, 0, 7, 0, false, false),
        Latch(4000, Movc, 0, 0, 0, 6, 0, 0, 6, 0, false, false)],
      clock := 4)
  const Mul5: State := Mul4.(
      regs := Mul4.regs[0 := 6],
      regsValid := Mul4.regsValid[0 := 0],
      stage := [
        Latch(4008, Mul, 2, 0, 1, 0, 0, 0, 0, 0, false, true),
        Latch(4008, Mul, 2, 0, 1, 0, 0, 0, 0, 0, false, true),
        Latch(4008, Mul, 2, 0, 1, 0, 0, 0, 0, 0, false, true),
        Latch(4008, Mul, 2, 0, 1, 0, 0, 0, 0, 0, false, true),
        Latch(4004, Movc, 1, 0, 0, 7, 0, 0, 7, 0, false, false)],
      clock := 5,
      insCompleted := 1)
  const Mul6: State := Mul5.(
      pc := 4016,
      regs := Mul5.regs[1 := 7],
      regsValid := Mul5.regsValid[1 := 0],
      stage := [
        Latch(4012, Halt, 0, 0, 0, 0, 0, 0, 0, 0, false, false),
        Latch(4012, Halt, 0, 0, 0, 0, 0, 0, 0, 0, false, false),
        Latch(4008, Mul, 2, 0, 1, 0, 6, 7, 0, 0, false, false),
        Latch(4008, Mul, 2, 0, 1, 0, 0, 0, 0, 0, false, true),
        Latch(4008, Mul, 2, 0, 1, 0, 0, 0, 0, 0, false, true)],
      clock := 6,
      insCompleted := 2)
  const Mul7: State := Mul6.(
      stage := [
        Latch(4012, Halt, 0, 0, 0, 0, 0, 0, 0, 0, false, true),
        Latch(4012, Halt, 0, 0, 0, 0, 0, 0, 0, 0, false, true),
        Latch(4012, Halt, 0, 0, 0, 0, 0, 0, 0, 0, false, false),
        Latch(4008, Mul, 2, 0, 1, 0, 6, 7, 42, 0, false, false),
        Latch(4008, Mul, 2, 0, 1, 0, 0, 0, 0, 0, false, true)],
      clock := 8)
  const Mul8: State := Mul7.(
      stage := [
        Latch(4012, Halt, 0, 0, 0, 0, 0, 0, 0, 0, false, true),
        Latch(4012, Halt, 0, 0, 0, 0, 0, 0, 0, 0, false, true),
        Latch(4012, Halt, 0, 0, 0, 0, 0, 0, 0, 0, false, true),
        Latch(4012, Halt, 0, 0, 0, 0, 0, 0, 0, 0, false, false),
        Latch(4008, Mul, 2, 0, 1, 0, 6, 7, 42, 0, false, false)],
      clock := 9)
  const Mul9: State := Mul8.(
      regs := Mul8.regs[2 := 42],
      regsValid := Mul8.regsValid[2 := 0],
      stage := [
        Latch(4012, Halt, 0, 0, 0, 0, 0, 0, 0, 0, false, true),
        Latch(4012, Halt, 0, 0, 0, 0, 0, 0, 0, 0, false, true),
        Latch(4012, Halt, 0, 0, 0, 0, 0, 0, 0, 0, false, false),
        Latch(4012, Halt, 0, 0, 0, 0, 0, 0, 0, 0, false, true),
        Latch(4012, Halt, 0, 0, 0, 0, 0, 0, 0, 0, false, false)],
      clock := 10,
      insCompleted := 3)
  const Mul10: State := Mul9.(
      stage := [
        Latch(4012, Halt, 0, 0, 0, 0, 0, 0, 0, 0, false, true),
        Latch(4012, Halt, 0, 0, 0, 0, 0, 0, 0, 0, false, true),
        Latch(4012, Halt, 0, 0, 0, 0, 0, 0, 0, 0, false, true),
        Latch(4012, Halt, 0, 0, 0, 0, 0, 0, 0, 0, false, false),
        Latch(4012, Halt, 0, 0, 0, 0, 0, 0, 0, 0, false, true)],
      clock := 11,
      insCompleted := 4)

  /** Each tick, stage by stage: the state after writeback, memory,
      execute and decode; fetch and the clock then give the next state. */
  lemma Tick1()
    ensures TickDefined(Mul0) && Tick(Mul0) == Mul1
  {
    var s1 := Writeback(Mul0);
    assert s1 == Mul0;
    var s2 := Memory(s1);
    assert s2 == s1;
    var s3 := Execute(s2);
    assert s3 == s2;
    var s4 := Decode(s3);
    assert s4 == s3;
  }

  lemma Tick2()
    ensures TickDefined(Mul1) && Tick(Mul1) == Mul2
  {
    var s1 := Writeback(Mul1);
    assert s1 == Mul1;
    var s2 := Memory(s1);
    assert s2 == s1;
    var s3 := Execute(s2);
    assert s3 == s2;
    var s4 := Decode(s3);
    assert s4 == s3.(
      stage := [
        Latch(4000, Movc, 0, 0, 0, 6, 0, 0, 0, 0, false, false),
        Latch(4000, Movc, 0, 0, 0, 6, 0, 0, 0, 0, false, false),
        Latch(4000, Movc, 0, 0, 0, 6, 0, 0, 0, 0, false, false),
        Latch(0, Unknown, 0, 0, 0, 0, 0, 0, 0, 0, true, false),
        Latch(0, Unknown, 0, 0, 0, 0, 0, 0, 0, 0, true, false)]);
  }

  lemma Tick3()
    ensures TickDefined(Mul2) && Tick(Mul2) == Mul3
  {
    var s1 := Writeback(Mul2);
    assert s1 == Mul2;
    var s2 := Memory(s1);
    assert s2 == s1;
    var s3 := Execute(s2);
    assert s3 == s2.(
      stage := [
        Latch(4004, Movc, 1, 0, 0, 7, 0, 0, 0, 0, false, false),
        Latch(4004, Movc, 1, 0, 0, 7, 0, 0, 0, 0, false, false),
        Latch(4000, Movc, 0, 0, 0, 6, 0, 0, 6, 0, false, false),
        Latch(4000, Movc, 0, 0, 0, 6, 0, 0, 6, 0, false, false),
        Latch(0, Unknown, 0, 0, 0, 0, 0, 0, 0, 0, true, false)]);
    var s4 := Decode(s3);
    assert s4 == s3.(
      stage := [
        Latch(4004, Movc, 1, 0, 0, 7, 0, 0, 0, 0, false, false),
        Latch(4004, Movc, 1, 0, 0, 7, 0, 0, 0, 0, false, false),
        Latch(4004, Movc, 1, 0, 0, 7, 0, 0, 0, 0, false, false),
        Latch(4000, Movc, 0, 0, 0, 6, 0, 0, 6, 0, false, false),
        Latch(0, Unknown, 0, 0, 0, 0, 0, 0, 0, 0, true, false)]);
  }

  lemma Tick4()
    ensures TickDefined(Mul3) && Tick(Mul3) == Mul4
  {
    var s1 := Writeback(Mul3);
    assert s1 == Mul3;
    var s2 := Memory(s1);
    assert s2 == s1.(
      stage := [
        Latch(4008, Mul, 2, 0, 1, 0, 0, 0, 0, 0, false, false),
        Latch(4008, Mul, 2, 0, 1, 0, 0, 0, 0, 0, false, false),
        Latch(4004, Movc, 1, 0, 0, 7, 0, 0, 0, 0, false, false),
        Latch(4000, Movc, 0, 0, 0, 6, 0, 0, 6, 0, false, false),
        Latch(4000, Movc, 0, 0, 0, 6, 0, 0, 6, 0, false, false)]);
    var s3 := Execute(s2);
    assert s3 == s2.(
      stage := [
        Latch(4008, Mul, 2, 0, 1, 0, 0, 0, 0, 0, false, false),
        Latch(4008, Mul, 2, 0, 1, 0, 0, 0, 0, 0, false, false),
        Latch(4004, Movc, 1, 0, 0, 7, 0, 0, 7, 0, false, false),
        Latch(4004, Movc, 1, 0, 0, 7, 0, 0, 7, 0, false, false),
        Latch(4000, Movc, 0, 0, 0, 6, 0, 0, 6, 0, false, false)]);
    var s4 := Decode(s3);
    assert s4 == s3.(
      regsValid := s3.regsValid[2 := 1],
      stage := [
        Latch(4008, Mul, 2, 0, 1, 0, 0, 0, 0, 0, false, true),
        Latch(4008, Mul, 2, 0, 1, 0, 0, 0, 0, 0, false, true),
        Latch(4008, Mul, 2, 0, 1, 0, 0, 0, 0, 0, false, true),
        Latch(4004, Movc, 1, 0, 0, 7, 0, 0, 7, 0, false, false),
        Latch(4000, Movc, 0, 0, 0, 6, 0, 0, 6, 0, false, false)]);
  }

  lemma Tick5()
    ensures TickDefined(Mul4) && Tick(Mul4) == Mul5
  {
    var s1 := Writeback(Mul4);
    assert s1 == Mul4.(
      regs := Mul4.regs[0 := 6],
      regsValid := Mul4.regsValid[0 := 0],
      stage := [
        Latch(4008, Mul, 2, 0, 1, 0, 0, 0, 0, 0, false, false),
        Latch(4008, Mul, 2, 0, 1, 0, 0, 0, 0, 0, false, false),
        Latch(4008, Mul, 2, 0, 1, 0, 0, 0, 0, 0, false, true),
        Latch(4004, Movc, 1, 0, 0, 7, 0, 0, 7, 0, false, false),
        Latch(4000, Movc, 0, 0, 0, 6, 0, 0, 6, 0, false, false)],
      insCompleted := 1);
    var s2 := Memory(s1);
    assert s2 == s1.(
      stage := [
        Latch(4008, Mul, 2, 0, 1, 0, 0, 0, 0, 0, false, false),
        Latch(4008, Mul, 2, 0, 1, 0, 0, 0, 0, 0, false, false),
        Latch(4008, Mul, 2, 0, 1, 0, 0, 0, 0, 0, false, true),
        Latch(4004, Movc, 1, 0, 0, 7, 0, 0, 7, 0, false, false),
        Latch(4004, Movc, 1, 0, 0, 7, 0, 0, 7, 0, false, false)]);
    var s3 := Execute(s2);
    assert s3 == s2.(
      stage := [
        Latch(4008, Mul, 2, 0, 1, 0, 0, 0, 0, 0, false, false),
        Latch(4008, Mul, 2, 0, 1, 0, 0, 0, 0, 0, false, false),
        Latch(4008, Mul, 2, 0, 1, 0, 0, 0, 0, 0, false, true),
        Latch(4008, Mul, 2, 0, 1, 0, 0, 0, 0, 0, false, true),
        Latch(4004, Movc, 1, 0, 0, 7, 0, 0, 7, 0, false, false)]);
    var s4 := Decode(s3);
    assert s4 == s3.(
      stage := [
        Latch(4008, Mul, 2, 0, 1, 0, 0, 0, 0, 0, false, true),
        Latch(4008, Mul, 2, 0, 1, 0, 0, 0, 0, 0, false, true),
        Latch(4008, Mul, 2, 0, 1, 0, 0, 0, 0, 0, false, true),
        Latch(4008, Mul, 2, 0, 1, 0, 0, 0, 0, 0, false, true),
        Latch(4004, Movc, 1, 0, 0, 7, 0, 0, 7, 0, false, false)]);
  }

  lemma Tick6()
    ensures TickDefined(Mul5) && Tick(Mul5) == Mul6
  {
    var s1 := Writeback(Mul5);
    assert s1 == Mul5.(
      regs := Mul5.regs[1 := 7],
      regsValid := Mul5.regsValid[1 := 0],
      stage := [
        Latch(4008, Mul, 2, 0, 1, 0, 0, 0, 0, 0, false, false),
        Latch(4008, Mul, 2, 0, 1, 0, 0, 0, 0, 0, false, false),
        Latch(4008, Mul, 2, 0, 1, 0, 0, 0, 0, 0, false, true),
        Latch(4008, Mul, 2, 0, 1, 0, 0, 0, 0, 0, false, true),
        Latch(4004, Movc, 1, 0, 0, 7, 0, 0, 7, 0, false, false)],
      insCompleted := 2);
    var s2 := Memory(s1);
    assert s2 == s1.(
      stage := [
        Latch(4008, Mul, 2, 0, 1, 0, 0, 0, 0, 0, false, false),
        Latch(4008, Mul, 2, 0, 1, 0, 0, 0, 0, 0, false, false),
        Latch(4008, Mul, 2, 0, 1, 0, 0, 0, 0, 0, false, true),
        Latch(4008, Mul, 2, 0, 1, 0, 0, 0, 0, 0, false, true),
        Latch(4008, Mul, 2, 0, 1, 0, 0, 0, 0, 0, false, true)]);
    var s3 := Execute(s2);
    assert s3 == s2;
    var s4 := Decode(s3);
    assert s4 == s3.(
      stage := [
        Latch(4008, Mul, 2, 0, 1, 0, 0, 0, 0, 0, false, false),
        Latch(4008, Mul, 2, 0, 1, 0, 6, 7, 0, 0, false, false),
        Latch(4008, Mul, 2, 0, 1, 0, 6, 7, 0, 0, false, false),
        Latch(4008, Mul, 2, 0, 1, 0, 0, 0, 0, 0, false, true),
        Latch(4008, Mul, 2, 0, 1, 0, 0, 0, 0, 0, false, true)]);
  }

  lemma Tick7()
    ensures TickDefined(Mul6) && Tick(Mul6) == Mul7
  {
    var s1 := Writeback(Mul6);
    assert s1 == Mul6;
    var s2 := Memory(s1);
    assert s2 == s1;
    var s3 := Execute(s2);
    assert s3 == s2.(
      stage := [
        Latch(4012, Halt, 0, 0, 0, 0, 0, 0, 0, 0, false, false),
        Latch(4012, Halt, 0, 0, 0, 0, 0, 0, 0, 0, false, false),
        Latch(4008, Mul, 2, 0, 1, 0, 6, 7, 42, 0, false, false),
        Latch(4008, Mul, 2, 0, 1, 0, 6, 7, 42, 0, false, false),
        Latch(4008, Mul, 2, 0, 1, 0, 0, 0, 0, 0, false, true)],
      clock := 7);
    var s4 := Decode(s3);
    assert s4 == s3.(
      stage := [
        Latch(4012, Halt, 0, 0, 0, 0, 0, 0, 0, 0, false, true),
        Latch(4012, Halt, 0, 0, 0, 0, 0, 0, 0, 0, false, false),
        Latch(4012, Halt, 0, 0, 0, 0, 0, 0, 0, 0, false, false),
        Latch(4008, Mul, 2, 0, 1, 0, 6, 7, 42, 0, false, false),
        Latch(4008, Mul, 2, 0, 1, 0, 0, 0, 0, 0, false, true)]);
  }

  lemma Tick8()
    ensures TickDefined(Mul7) && Tick(Mul7) == Mul8
  {
    var s1 := Writeback(Mul7);
    assert s1 == Mul7;
    var s2 := Memory(s1);
    assert s2 == s1.(
      stage := [
        Latch(4012, Halt, 0, 0, 0, 0, 0, 0, 0, 0, false, true),
        Latch(4012, Halt, 0, 0, 0, 0, 0, 0, 0, 0, false, true),
        Latch(4012, Halt, 0, 0, 0, 0, 0, 0, 0, 0, false, false),
        Latch(4008, Mul, 2, 0, 1, 0, 6, 7, 42, 0, false, false),
        Latch(4008, Mul, 2, 0, 1, 0, 6, 7, 42, 0, false, false)]);
    var s3 := Execute(s2);
    assert s3 == s2.(
      stage := [
        Latch(4012, Halt, 0, 0, 0, 0, 0, 0, 0, 0, false, true),
        Latch(4012, Halt, 0, 0, 0, 0, 0, 0, 0, 0, false, true),
        Latch(4012, Halt, 0, 0, 0, 0, 0, 0, 0, 0, false, false),
        Latch(4012, Halt, 0, 0, 0, 0, 0, 0, 0, 0, false, false),
        Latch(4008, Mul, 2, 0, 1, 0, 6, 7, 42, 0, false, false)]);
    var s4 := Decode(s3);
    assert s4 == s3.(
      stage := [
        Latch(4012, Halt, 0, 0, 0, 0, 0, 0, 0, 0, false, true),
        Latch(4012, Halt, 0, 0, 0, 0, 0, 0, 0, 0, false, true),
        Latch(4012, Halt, 0, 0, 0, 0, 0, 0, 0, 0, false, true),
        Latch(4012, Halt, 0, 0, 0, 0, 0, 0, 0, 0, false, false),
        Latch(4008, Mul, 2, 0, 1, 0, 6, 7, 42, 0, false, false)]);
  }

  lemma Tick9()
    ensures TickDefined(Mul8) && Tick(Mul8) == Mul9
  {
    var s1 := Writeback(Mul8);
    assert s1 == Mul8.(
      regs := Mul8.regs[2 := 42],
      regsValid := Mul8.regsValid[2 := 0],
      stage := [
        Latch(4012, Halt, 0, 0, 0, 0, 0, 0, 0, 0, false, false),
        Latch(4012, Halt, 0, 0, 0, 0, 0, 0, 0, 0, false, false),
        Latch(4012, Halt, 0, 0, 0, 0, 0, 0, 0, 0, false, true),
        Latch(4012, Halt, 0, 0, 0, 0, 0, 0, 0, 0, false, false),
        Latch(4008, Mul, 2, 0, 1, 0, 6, 7, 42, 0, false, false)],
      insCompleted := 3);
    var s2 := Memory(s1);
    assert s2 == s1.(
      stage := [
        Latch(4012, Halt, 0, 0, 0, 0, 0, 0, 0, 0, false, false),
        Latch(4012, Halt, 0, 0, 0, 0, 0, 0, 0, 0, false, false),
        Latch(4012, Halt, 0, 0, 0, 0, 0, 0, 0, 0, false, true),
        Latch(4012, Halt, 0, 0, 0, 0, 0, 0, 0, 0, false, false),
        Latch(4012, Halt, 0, 0, 0, 0, 0, 0, 0, 0, false, false)]);
    var s3 := Execute(s2);
    assert s3 == s2.(
      stage := [
        Latch(4012, Halt, 0, 0, 0, 0, 0, 0, 0, 0, false, false),
        Latch(4012, Halt, 0, 0, 0, 0, 0, 0, 0, 0, false, false),
        Latch(4012, Halt, 0, 0, 0, 0, 0, 0, 0, 0, false, true),
        Latch(4012, Halt, 0, 0, 0, 0, 0, 0, 0, 0, false, true),
        Latch(4012, Halt, 0, 0, 0, 0, 0, 0, 0, 0, false, false)]);
    var s4 := Decode(s3);
    assert s4 == s3.(
      stage := [
        Latch(4012, Halt, 0, 0, 0, 0, 0, 0, 0, 0, false, true),
        Latch(4012, Halt, 0, 0, 0, 0, 0, 0, 0, 0, false, false),
        Latch(4012, Halt, 0, 0, 0, 0, 0, 0, 0, 0, false, false),
        Latch(4012, Halt, 0, 0, 0, 0, 0, 0, 0, 0, false, true),
        Latch(4012, Halt, 0, 0, 0, 0, 0, 0, 0, 0, false, false)]);
  }

  lemma Tick10()
    ensures TickDefined(Mul9) && Tick(Mul9) == Mul10
  {
    var s1 := Writeback(Mul9);
    assert s1 == Mul9.(
      insCompleted := 4);
    var s2 := Memory(s1);
    assert s2 == s1.(
      stage := [
        Latch(4012, Halt, 0, 0, 0, 0, 0, 0, 0, 0, false, true),
        Latch(4012, Halt, 0, 0, 0, 0, 0, 0, 0, 0, false, true),
        Latch(4012, Halt, 0, 0, 0, 0, 0, 0, 0, 0, false, false),
        Latch(4012, Halt, 0, 0, 0, 0, 0, 0, 0, 0, false, true),
        Latch(4012, Halt, 0, 0, 0, 0, 0, 0, 0, 0, false, true)]);
    var s3 := Execute(s2);
    assert s3 == s2.(
      stage := [
        Latch(4012, Halt, 0, 0, 0, 0, 0, 0, 0, 0, false, true),
        Latch(4012, Halt, 0, 0, 0, 0, 0, 0, 0, 0, false, true),
        Latch(4012, Halt, 0, 0, 0, 0, 0, 0, 0, 0, false, false),
        Latch(4012, Halt, 0, 0, 0, 0, 0, 0, 0, 0, false, false),
        Latch(4012, Halt, 0, 0, 0, 0, 0, 0, 0, 0, false, true)]);
    var s4 := Decode(s3);
    assert s4 == s3.(
      stage := [
        Latch(4012, Halt, 0, 0, 0, 0, 0, 0, 0, 0, false, true),
        Latch(4012, Halt, 0, 0, 0, 0, 0, 0, 0, 0, false, true),
        Latch(4012, Halt, 0, 0, 0, 0, 0, 0, 0, 0, false, true),
        Latch(4012, Halt, 0, 0, 0, 0, 0, 0, 0, 0, false, false),
        Latch(4012, Halt, 0, 0, 0, 0, 0, 0, 0, 0, false, true)]);
  }

  /** From each state of the trace, the rest of the run reaches the last one. */
  lemma RunFrom9()
    ensures Run(Mul9, 1) == RunResult(Completed, Mul10)
  {
    Tick10();
    RunTick(Mul9, 1);
  }

  lemma RunFrom8()
    ensures Run(Mul8, 2) == RunResult(Completed, Mul10)
  {
    Tick9();
    RunTick(Mul8, 2);
    RunFrom9();
  }

  lemma RunFrom7()
    ensures Run(Mul7, 3) == RunResult(Completed, Mul10)
  {
    Tick8();
    RunTick(Mul7, 3);
    RunFrom8();
  }

  lemma RunFrom6()
    ensures Run(Mul6, 4) == RunResult(Completed, Mul10)
  {
    Tick7();
    RunTick(Mul6, 4);
    RunFrom7();
  }

  lemma RunFrom5()
    ensures Run(Mul5, 5) == RunResult(Completed, Mul10)
  {
    Tick6();
    RunTick(Mul5, 5);
    RunFrom6();
  }

  lemma RunFrom4()
    ensures Run(Mul4, 6) == RunResult(Completed, Mul10)
  {
    Tick5();
    RunTick(Mul4, 6);
    RunFrom5();
  }

  lemma RunFrom3()
    ensures Run(Mul3, 7) == RunResult(Completed, Mul10)
  {
    Tick4();
    RunTick(Mul3, 7);
    RunFrom4();
  }

  lemma RunFrom2()
    ensures Run(Mul2, 8) == RunResult(Completed, Mul10)
  {
    Tick3();
    RunTick(Mul2, 8);
    RunFrom3();
  }

  lemma RunFrom1()
    ensures Run(Mul1, 9) == RunResult(Completed, Mul10)
  {
    Tick2();
    RunTick(Mul1, 9);
    RunFrom2();
  }

  lemma RunFrom0()
    ensures Run(Mul0, 10) == RunResult(Completed, Mul10)
  {
    Tick1();
    RunTick(Mul0, 10);
    RunFrom1();
  }

  /** The last state of the trace. */
  lemma Final()
    ensures Mul10.insCompleted == 4 && Mul10.clock == 11 &&
            Mul10.regs[2] == 42 && Mul10.dataMemory == Mul0.dataMemory
  {
  }

  /** Ten ticks complete the program, as for ADD, but the clock reads 11;
      data memory is as it started. */
  lemma Completes()
    ensures var r := Run(Init(Program), 10);
      r.reason == Completed && r.final.insCompleted == 4 && r.final.clock == 11 &&
      r.final.regs[2] == 42 && r.final.dataMemory == Init(Program).dataMemory
  {
    RunFrom0();
    Final();
  }
}
