/** The APEX instruction set as the pipeline sees it: opcodes, decoded
    instructions, and the mapping from a program counter to a slot of
    code memory. */
module Isa {

  /** The opcodes the stages dispatch on. The loader hands the core an
      opcode as a text token that each stage compares with `strcmp`; a
      token no stage recognises (including the empty string that a zeroed
      latch holds) is `Unknown`: it flows through the pipeline with no
      effect and is still counted at writeback. */
  datatype Opcode =
    | Movc | Add | Sub | And | Or | ExOr | Mul
    | Load | Store | Bz | Bnz | Jump | Halt
    | Unknown

  /** The token each stage compares against. Exclusive-or is spelled
      "EX-OR" in decode, execute and writeback. */
  function Token(op: Opcode): string {
    match op
    case Movc => "MOVC"
    case Add => "ADD"
    case Sub => "SUB"
    case And => "AND"
    case Or => "OR"
    case ExOr => "EX-OR"
    case Mul => "MUL"
    case Load => "LOAD"
    case Store => "STORE"
    case Bz => "BZ"
    case Bnz => "BNZ"
    case Jump => "JUMP"
    case Halt => "HALT"
    case Unknown => ""
  }

  /** The opcode a token selects: the first token that compares equal,
      `Unknown` when none does. */
  function ParseOpcode(token: string): (op: Opcode)
    ensures op == Unknown || Token(op) == token
    ensures token == "" ==> op == Unknown
  {
    if token == "MOVC" then Movc
    else if token == "ADD" then Add
    else if token == "SUB" then Sub
    else if token == "AND" then And
    else if token == "OR" then Or
    else if token == "EX-OR" then ExOr
    else if token == "MUL" then Mul
    else if token == "LOAD" then Load
    else if token == "STORE" then Store
    else if token == "BZ" then Bz
    else if token == "BNZ" then Bnz
    else if token == "JUMP" then Jump
    else if token == "HALT" then Halt
    else Unknown
  }

  /** Every opcode is recovered from its own token. */
  lemma {:induction false} ParseToken(op: Opcode)
    ensures ParseOpcode(Token(op)) == op
  {
    match op
    case Movc =>
    case Add =>
    case Sub =>
    case And =>
    case Or =>
    case ExOr =>
    case Mul =>
    case Load =>
    case Store =>
    case Bz =>
    case Bnz =>
    case Jump =>
    case Halt =>
    case Unknown =>
  }

  /** The memory stage tests for "EX_OR" (underscore), which selects no
      opcode; its branch is empty, so nothing depends on it. */
  lemma UnderscoreXorIsNoOpcode()
    ensures ParseOpcode("EX_OR") == Unknown
  {
  }

  /** The two-source arithmetic and logic opcodes that share decode's
      hazard check. */
  predicate IsArith(op: Opcode) {
    op in {Add, Sub, And, Or, ExOr, Mul}
  }

  /** The opcodes whose result writeback commits to `rd`. */
  predicate WritesRegister(op: Opcode) {
    op in {Movc, Add, Sub, And, ExOr, Or, Load, Mul}
  }

  /** A decoded instruction as the loader produces it. Operands that an
      opcode does not use are still carried along. */
  datatype Instruction = Instruction(opcode: Opcode, rd: int, rs1: int, rs2: int, imm: int)

  /** Address of the first instruction; each instruction is one 4-byte word. */
  const CodeBase: int := 4000
  const WordSize: int := 4

  /** Address of the `k`th instruction of code memory. */
  function CodeAddress(k: nat): int {
    CodeBase + WordSize * k
  }

  /** `(pc - 4000) / 4` with C's integer division, which truncates toward
      zero: above the base the index is the word the address falls in,
      below it the quotient is rounded up toward zero. */
  function GetCodeIndex(pc: int): (k: int)
    ensures pc >= CodeBase ==> k >= 0 && CodeAddress(k) <= pc < CodeAddress(k) + WordSize
    ensures pc < CodeBase ==> k <= 0 && CodeBase + WordSize * k - WordSize < pc <= CodeBase + WordSize * k
  {
    var d := pc - CodeBase;
    if d >= 0 then d / WordSize else -((-d) / WordSize)
  }

  /** Fetching at the address of slot `k` reads slot `k`. */
  lemma CodeIndexOfAddress(k: nat)
    ensures GetCodeIndex(CodeAddress(k)) == k
  {
  }

  /** Because C truncates, the three addresses just below the base also
      select slot 0. */
  lemma CodeIndexBelowBase(pc: int)
    requires CodeBase - WordSize < pc < CodeBase
    ensures GetCodeIndex(pc) == 0
  {
  }
}
