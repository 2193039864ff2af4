/**
 * The CHIP-8 instruction set as src/chip8/cpu.rs has it: the operand and
 * instruction datatypes, the opcode decoder, and the value-level meaning of
 * evaluating, assigning and executing. The methods that carry these out on a
 * `Chip8` object are in module Vm (Rust defines them in `impl Chip8`).
 *
 * Every arm that Rust leaves as `todo!()` yields `Unimplemented` here.
 */
module Cpu {
  import opened Types

  /** A place an instruction reads from or writes to. */
  datatype CpuInstrTarget =
    | IRegister
    | VRegister(reg: nat)
    | MemoryAddress(addr: nat)
    | Constant(val: u16)
    | CurrentKeyPressed
    | CurrentDelayTimer
    | CurrentSoundTimer
    | SpriteAddress(sprite: nat)
    | RandomNum(mask: u8)

  datatype AluOperations =
    | Assign | Add | Subtract | SubtractFlipped | Or | And | Xor
    | ShiftRight | ShiftLeft | Unknown

  datatype CpuInstruction =
    | CallMachineCode(addr: CpuInstrTarget)
    | ClearDisplay
    | Return
    | Jump(addr: CpuInstrTarget)
    | CallSubroutine(addr: CpuInstrTarget)
    | CompareEq(eq: bool, left: CpuInstrTarget, right: CpuInstrTarget)
    | Assignment(to: CpuInstrTarget, from: CpuInstrTarget)
    | AluOperation(op: AluOperations, left: CpuInstrTarget, right: CpuInstrTarget)
    | SpecialJump(offset: CpuInstrTarget)
    | Draw(xReg: CpuInstrTarget, yReg: CpuInstrTarget, heightPx: CpuInstrTarget)
    | Bcd(xReg: CpuInstrTarget)
    | RegisterDump(x: CpuInstrTarget)
    | RegisterLoad(x: CpuInstrTarget)
    | Unknown(opcode: u16)

  /** The outcome of an operation whose Rust arm may be `todo!()`. */
  datatype Outcome<T> = Ok(value: T) | Unimplemented

  // ---------------------------------------------------------------------------
  // Decoding
  // ---------------------------------------------------------------------------

  /** `(opcode & 0xF000) >> 12`: the top nibble, the instruction class. */
  function InstructionType(opcode: u16): nat { opcode / 0x1000 }

  /** `opcode & 0x0FFF`: the 12-bit operand field. */
  function InstructionOperands(opcode: u16): nat { opcode % 0x1000 }

  /** The ALU operation selected by the low nibble of an 0x8XYN opcode. */
  function AluOperationFor(n: nat): (op: AluOperations)
    ensures op == AluOperations.Unknown <==> n !in {0x0, 0x1, 0x2, 0x3, 0x4, 0x5, 0x6, 0x7, 0xE}
  {
    match n
    case 0x0 => Assign
    case 0x1 => Or
    case 0x2 => And
    case 0x3 => Xor
    case 0x4 => Add
    case 0x5 => Subtract
    case 0x6 => ShiftRight
    case 0x7 => SubtractFlipped
    case 0xE => ShiftLeft
    case _ => AluOperations.Unknown
  }

  /** The operands an instruction carries, in declaration order. */
  function Targets(instr: CpuInstruction): seq<CpuInstrTarget> {
    match instr
    case CallMachineCode(a) => [a]
    case ClearDisplay => []
    case Return => []
    case Jump(a) => [a]
    case CallSubroutine(a) => [a]
    case CompareEq(_, l, r) => [l, r]
    case Assignment(t, f) => [t, f]
    case AluOperation(_, l, r) => [l, r]
    case SpecialJump(o) => [o]
    case Draw(xr, yr, h) => [xr, yr, h]
    case Bcd(xr) => [xr]
    case RegisterDump(x) => [x]
    case RegisterLoad(x) => [x]
    case Unknown(_) => []
  }

  /** The register and memory asserts (registers.rs:16, memory.rs:18) hold for this operand. */
  predicate InBounds(t: CpuInstrTarget) {
    match t
    case VRegister(reg) => reg < 16
    case MemoryAddress(addr) => addr < 4096
    case _ => true
  }

  predicate OperandsInBounds(instr: CpuInstruction) {
    forall t <- Targets(instr) :: InBounds(t)
  }

  /**
   * `opcode_to_instruction`: total over all 65536 opcodes. Decoded register
   * and memory operands always pass the component asserts, every constant
   * fits in 12 bits, and `Unknown` arises only from class 0xF, carrying the
   * opcode unchanged.
   */
  function OpcodeToInstruction(opcode: u16): (instr: CpuInstruction)
    ensures OperandsInBounds(instr)
    ensures forall t <- Targets(instr) :: t.Constant? ==> t.val <= 0xFFF
    ensures forall t <- Targets(instr) :: t.SpriteAddress? ==> t.sprite < 16
    ensures instr.Unknown? ==> instr.opcode == opcode && InstructionType(opcode) == 0xF
  {
    var operands := InstructionOperands(opcode);
    var x, y, n := operands / 0x100, operands / 0x10 % 0x10, operands % 0x10;
    var nn := operands % 0x100;
    match InstructionType(opcode)
    case 0x0 =>
      if operands == 0x0E0 then ClearDisplay
      else if operands == 0x0EE then Return
      else CallMachineCode(MemoryAddress(operands))
    case 0x1 => Jump(MemoryAddress(operands))
    case 0x2 => CallSubroutine(MemoryAddress(operands))
    case 0x3 => CompareEq(true, VRegister(x), Constant(nn))
    case 0x4 => CompareEq(false, VRegister(x), Constant(nn))
    case 0x5 => CompareEq(true, VRegister(x), VRegister(y))
    case 0x9 => CompareEq(false, VRegister(x), VRegister(y))
    case 0x6 => Assignment(VRegister(x), Constant(nn))
    case 0x7 => AluOperation(Add, VRegister(x), Constant(nn))
    case 0x8 => AluOperation(AluOperationFor(n), VRegister(x), VRegister(y))
    case 0xA => Assignment(IRegister, Constant(operands))
    case 0xB => SpecialJump(Constant(operands))
    case 0xC => Assignment(VRegister(x), RandomNum(nn))
    case 0xD => Draw(VRegister(x), VRegister(y), Constant(n))
    case 0xE => CompareEq(nn == 0x9E, CurrentKeyPressed, VRegister(x))
    case _ =>
      // class 0xF, the only one left
      match nn
      case 0x07 => Assignment(VRegister(x), CurrentDelayTimer)
      case 0x0A => Assignment(VRegister(x), CurrentKeyPressed)
      case 0x15 => Assignment(CurrentDelayTimer, VRegister(x))
      case 0x18 => Assignment(CurrentSoundTimer, VRegister(x))
      case 0x1E => AluOperation(Add, IRegister, VRegister(x))
      case 0x29 => Assignment(IRegister, SpriteAddress(x))
      case 0x33 => Bcd(VRegister(x))
      case 0x55 => RegisterDump(VRegister(x))
      case 0x65 => RegisterLoad(VRegister(x))
      case _ => CpuInstruction.Unknown(opcode)
  }

  // The dispatch table, stated on opcodes composed from their nibbles.

  /** An opcode 0xTNNN splits back into its class and its operands. */
  lemma ClassAndOperands(t: nat, nnn: nat)
    requires t < 16 && nnn < 0x1000
    ensures t * 0x1000 + nnn < 0x1_0000
    ensures InstructionType(t * 0x1000 + nnn) == t
    ensures InstructionOperands(t * 0x1000 + nnn) == nnn
  {
  }

  /** Division by 16 undoes q * 16 + r. */
  lemma Split16(q: nat, r: nat)
    requires r < 0x10
    ensures (q * 0x10 + r) / 0x10 == q && (q * 0x10 + r) % 0x10 == r
  {
  }

  /** Division by 256 undoes q * 256 + r. */
  lemma Split256(q: nat, r: nat)
    requires r < 0x100
    ensures (q * 0x100 + r) / 0x100 == q && (q * 0x100 + r) % 0x100 == r
  {
  }

  /** Operands 0xXYN split back into their three nibbles. */
  lemma OperandNibbles(x: nat, y: nat, n: nat)
    requires x < 16 && y < 16 && n < 16
    ensures (x * 0x100 + y * 0x10 + n) / 0x100 == x
    ensures (x * 0x100 + y * 0x10 + n) / 0x10 % 0x10 == y
    ensures (x * 0x100 + y * 0x10 + n) % 0x10 == n
    ensures (x * 0x100 + y * 0x10 + n) % 0x100 == y * 0x10 + n
  {
    var o := x * 0x100 + y * 0x10 + n;
    Split256(x, y * 0x10 + n);
    assert o == (x * 0x10 + y) * 0x10 + n;
    Split16(x * 0x10 + y, n);
    Split16(x, y);
  }

  /** An opcode 0xTXYN splits back into its four nibbles. */
  lemma Nibbles(t: nat, x: nat, y: nat, n: nat)
    requires t < 16 && x < 16 && y < 16 && n < 16
    ensures var opcode := t * 0x1000 + x * 0x100 + y * 0x10 + n;
      && opcode < 0x1_0000
      && InstructionType(opcode) == t
      && InstructionOperands(opcode) == x * 0x100 + y * 0x10 + n
      && InstructionOperands(opcode) / 0x100 == x
      && InstructionOperands(opcode) / 0x10 % 0x10 == y
      && InstructionOperands(opcode) % 0x10 == n
      && InstructionOperands(opcode) % 0x100 == y * 0x10 + n
  {
    ClassAndOperands(t, x * 0x100 + y * 0x10 + n);
    OperandNibbles(x, y, n);
  }

  lemma DecodeSystem(nnn: nat)
    requires nnn < 0x1000
    ensures OpcodeToInstruction(0x00E0) == ClearDisplay
    ensures OpcodeToInstruction(0x00EE) == Return
    ensures nnn != 0x0E0 && nnn != 0x0EE ==>
              OpcodeToInstruction(nnn) == CallMachineCode(MemoryAddress(nnn))
  {
  }

  lemma DecodeJumpAndCall(nnn: nat)
    requires nnn < 0x1000
    ensures OpcodeToInstruction(0x1000 + nnn) == Jump(MemoryAddress(nnn))
    ensures OpcodeToInstruction(0x2000 + nnn) == CallSubroutine(MemoryAddress(nnn))
  {
  }

  lemma DecodeCompare(x: nat, y: nat, n: nat, nn: nat)
    requires x < 16 && y < 16 && n < 16 && nn < 0x100
    ensures OpcodeToInstruction(0x3000 + x * 0x100 + nn) == CompareEq(true, VRegister(x), Constant(nn))
    ensures OpcodeToInstruction(0x4000 + x * 0x100 + nn) == CompareEq(false, VRegister(x), Constant(nn))
    ensures OpcodeToInstruction(0x5000 + x * 0x100 + y * 0x10 + n) == CompareEq(true, VRegister(x), VRegister(y))
    ensures OpcodeToInstruction(0x9000 + x * 0x100 + y * 0x10 + n) == CompareEq(false, VRegister(x), VRegister(y))
  {
    Nibbles(0x3, x, nn / 0x10, nn % 0x10);
    Nibbles(0x4, x, nn / 0x10, nn % 0x10);
    Nibbles(0x5, x, y, n);
    Nibbles(0x9, x, y, n);
  }

  lemma DecodeRegisterConstant(x: nat, nn: nat)
    requires x < 16 && nn < 0x100
    ensures OpcodeToInstruction(0x6000 + x * 0x100 + nn) == Assignment(VRegister(x), Constant(nn))
    ensures OpcodeToInstruction(0x7000 + x * 0x100 + nn) == AluOperation(Add, VRegister(x), Constant(nn))
    ensures OpcodeToInstruction(0xC000 + x * 0x100 + nn) == Assignment(VRegister(x), RandomNum(nn))
  {
    Nibbles(0x6, x, nn / 0x10, nn % 0x10);
    Nibbles(0x7, x, nn / 0x10, nn % 0x10);
    Nibbles(0xC, x, nn / 0x10, nn % 0x10);
  }

  lemma DecodeAlu(x: nat, y: nat, n: nat)
    requires x < 16 && y < 16 && n < 16
    ensures var instr := OpcodeToInstruction(0x8000 + x * 0x100 + y * 0x10 + n);
      && instr.AluOperation?
      && instr.left == VRegister(x) && instr.right == VRegister(y)
      && (instr.op == Assign <==> n == 0x0)
      && (instr.op == Or <==> n == 0x1)
      && (instr.op == And <==> n == 0x2)
      && (instr.op == Xor <==> n == 0x3)
      && (instr.op == Add <==> n == 0x4)
      && (instr.op == Subtract <==> n == 0x5)
      && (instr.op == ShiftRight <==> n == 0x6)
      && (instr.op == SubtractFlipped <==> n == 0x7)
      && (instr.op == ShiftLeft <==> n == 0xE)
      && (instr.op == AluOperations.Unknown <==> 0x8 <= n <= 0xD || n == 0xF)
  {
    Nibbles(0x8, x, y, n);
  }

  lemma DecodeAddressForms(nnn: nat)
    requires nnn < 0x1000
    ensures OpcodeToInstruction(0xA000 + nnn) == Assignment(IRegister, Constant(nnn))
    ensures OpcodeToInstruction(0xB000 + nnn) == SpecialJump(Constant(nnn))
  {
  }

  lemma DecodeDraw(x: nat, y: nat, n: nat)
    requires x < 16 && y < 16 && n < 16
    ensures OpcodeToInstruction(0xD000 + x * 0x100 + y * 0x10 + n)
         == Draw(VRegister(x), VRegister(y), Constant(n))
  {
    Nibbles(0xD, x, y, n);
  }

  lemma DecodeKeySkip(x: nat, nn: nat)
    requires x < 16 && nn < 0x100
    ensures OpcodeToInstruction(0xE000 + x * 0x100 + nn)
         == CompareEq(nn == 0x9E, CurrentKeyPressed, VRegister(x))
  {
    Nibbles(0xE, x, nn / 0x10, nn % 0x10);
  }

  lemma DecodeTimersAndKeyRead(x: nat)
    requires x < 16
    ensures OpcodeToInstruction(0xF007 + x * 0x100) == Assignment(VRegister(x), CurrentDelayTimer)
    ensures OpcodeToInstruction(0xF00A + x * 0x100) == Assignment(VRegister(x), CurrentKeyPressed)
    ensures OpcodeToInstruction(0xF015 + x * 0x100) == Assignment(CurrentDelayTimer, VRegister(x))
    ensures OpcodeToInstruction(0xF018 + x * 0x100) == Assignment(CurrentSoundTimer, VRegister(x))
  {
    Nibbles(0xF, x, 0x0, 0x7);
    Nibbles(0xF, x, 0x0, 0xA);
    Nibbles(0xF, x, 0x1, 0x5);
    Nibbles(0xF, x, 0x1, 0x8);
  }

  lemma DecodeIndexForms(x: nat)
    requires x < 16
    ensures OpcodeToInstruction(0xF01E + x * 0x100) == AluOperation(Add, IRegister, VRegister(x))
    ensures OpcodeToInstruction(0xF029 + x * 0x100) == Assignment(IRegister, SpriteAddress(x))
  {
    Nibbles(0xF, x, 0x1, 0xE);
    Nibbles(0xF, x, 0x2, 0x9);
  }

  lemma DecodeMemoryForms(x: nat)
    requires x < 16
    ensures OpcodeToInstruction(0xF033 + x * 0x100) == Bcd(VRegister(x))
    ensures OpcodeToInstruction(0xF055 + x * 0x100) == RegisterDump(VRegister(x))
    ensures OpcodeToInstruction(0xF065 + x * 0x100) == RegisterLoad(VRegister(x))
  {
    Nibbles(0xF, x, 0x3, 0x3);
    Nibbles(0xF, x, 0x5, 0x5);
    Nibbles(0xF, x, 0x6, 0x5);
  }

  /** The nine low bytes that class 0xF recognises. */
  predicate KnownMiscByte(nn: nat) {
    nn in {0x07, 0x0A, 0x15, 0x18, 0x1E, 0x29, 0x33, 0x55, 0x65}
  }

  /** The low byte of the operands is the low byte of the opcode. */
  lemma OperandsLowByte(opcode: u16)
    ensures InstructionOperands(opcode) % 0x100 == opcode % 0x100
  {
    var q := opcode / 0x1000;
    assert opcode == q * 0x1000 + InstructionOperands(opcode);
    assert q * 0x1000 == (q * 0x10) * 0x100;
  }

  lemma DecodeUnknownIff(opcode: u16)
    ensures OpcodeToInstruction(opcode).Unknown?
        <==> opcode / 0x1000 == 0xF && !KnownMiscByte(opcode % 0x100)
  {
    OperandsLowByte(opcode);
  }

  // ---------------------------------------------------------------------------
  // Evaluating and assigning operands
  // ---------------------------------------------------------------------------

  /** The part of a `Chip8` that evaluation and execution read and write. */
  datatype Machine = Machine(mem: seq<u8>, v: seq<u8>, i: u16, pc: u16) {
    predicate Valid() { |mem| == 4096 && |v| == 16 }
  }

  /** The operands `evaluate_cpu_instr_target` does not leave as `todo!()`. */
  predicate Readable(t: CpuInstrTarget) {
    t.IRegister? || t.VRegister? || t.MemoryAddress? || t.Constant?
  }

  /** The operands `set_cpu_instr_target` does not leave as `todo!()`. */
  predicate Writable(t: CpuInstrTarget) {
    t.IRegister? || t.VRegister? || t.MemoryAddress?
  }

  /** Number of values a writable operand holds: `as u16` for I, `as u8` otherwise. */
  function Width(t: CpuInstrTarget): nat
    requires Writable(t)
  {
    if t.IRegister? then 0x1_0000 else 0x100
  }

  /**
   * `evaluate_cpu_instr_target`. A memory operand reads the byte stored at
   * its address. Every value read fits in 16 bits.
   */
  function Evaluate(m: Machine, t: CpuInstrTarget): (r: Outcome<nat>)
    requires m.Valid() && InBounds(t)
    ensures r.Ok? <==> Readable(t)
    ensures r.Ok? ==> r.value < 0x1_0000
    ensures r.Ok? && t.VRegister? ==> r.value < 0x100
    ensures r.Ok? && t.MemoryAddress? ==> r.value < 0x100
  {
    match t
    case IRegister => Ok(m.i as nat)
    case VRegister(reg) => Ok(m.v[reg] as nat)
    case MemoryAddress(addr) => Ok(m.mem[addr] as nat)
    case Constant(val) => Ok(val as nat)
    case _ => Unimplemented
  }

  /** `set_cpu_instr_target`: the value is truncated to the width of the destination. */
  function SetTarget(m: Machine, t: CpuInstrTarget, val: nat): (r: Outcome<Machine>)
    requires m.Valid() && InBounds(t)
    ensures r.Ok? <==> Writable(t)
    ensures r.Ok? ==> r.value.Valid() && r.value.pc == m.pc
  {
    match t
    case IRegister => Ok(m.(i := val % 0x1_0000))
    case VRegister(reg) => Ok(m.(v := m.v[reg := val % 0x100]))
    case MemoryAddress(addr) => Ok(m.(mem := m.mem[addr := val % 0x100]))
    case _ => Unimplemented
  }

  /** Writing then reading the same operand yields the written value, truncated. */
  lemma SetThenEvaluate(m: Machine, t: CpuInstrTarget, val: nat)
    requires m.Valid() && InBounds(t) && Writable(t)
    ensures Evaluate(SetTarget(m, t, val).value, t) == Ok(val % Width(t))
  {
  }

  /** Writing one operand leaves every other operand, and the PC, as it was. */
  lemma SetTargetFrame(m: Machine, t: CpuInstrTarget, u: CpuInstrTarget, val: nat)
    requires m.Valid() && InBounds(t) && Writable(t) && InBounds(u) && u != t
    ensures SetTarget(m, t, val).value.pc == m.pc
    ensures Evaluate(SetTarget(m, t, val).value, u) == Evaluate(m, u)
  {
  }

  // ---------------------------------------------------------------------------
  // Executing
  // ---------------------------------------------------------------------------

  /** The operand asserts `execute_instruction` reaches before any `todo!()`. */
  predicate ExecutionInBounds(instr: CpuInstruction) {
    match instr
    case Jump(addr) => InBounds(addr)
    case Assignment(to, from) => InBounds(from) && (Readable(from) ==> InBounds(to))
    case SpecialJump(offset) => InBounds(offset)
    case _ => true
  }

  /**
   * `execute_instruction`. Only Jump, Assignment and SpecialJump are
   * implemented; a jump changes nothing but the PC.
   */
  function Execute(m: Machine, instr: CpuInstruction): (r: Outcome<Machine>)
    requires m.Valid() && ExecutionInBounds(instr)
    ensures r.Ok? ==> r.value.Valid()
    ensures r.Ok? ==> instr.Jump? || instr.Assignment? || instr.SpecialJump?
    ensures r.Ok? && (instr.Jump? || instr.SpecialJump?) ==> r.value == m.(pc := r.value.pc)
  {
    match instr
    case Jump(addr) =>
      (match Evaluate(m, addr)
       case Ok(a) => Ok(m.(pc := a % 0x1_0000))
       case Unimplemented => Unimplemented)
    case Assignment(to, from) =>
      (match Evaluate(m, from)
       case Ok(val) => SetTarget(m, to, val)
       case Unimplemented => Unimplemented)
    case SpecialJump(offset) =>
      var v0 := m.v[0];
      (match Evaluate(m, offset)
       case Ok(off) => Ok(m.(pc := (v0 + off) % 0x1_0000))
       case Unimplemented => Unimplemented)
    case _ => Unimplemented
  }

  /**
   * An assignment between implemented operands writes the source value,
   * truncated, into the destination, and no other operand or the PC changes.
   */
  lemma ExecuteAssignment(m: Machine, to: CpuInstrTarget, from: CpuInstrTarget, u: CpuInstrTarget)
    requires m.Valid() && InBounds(to) && InBounds(from) && InBounds(u)
    requires Readable(from) && Writable(to) && u != to
    ensures Execute(m, Assignment(to, from)).Ok?
    ensures var m' := Execute(m, Assignment(to, from)).value;
      && Evaluate(m', to) == Ok(Evaluate(m, from).value % Width(to))
      && Evaluate(m', u) == Evaluate(m, u)
      && m'.pc == m.pc
  {
    var val := Evaluate(m, from).value;
    SetThenEvaluate(m, to, val);
    SetTargetFrame(m, to, u, val);
  }

  /** Of all decoded opcodes, exactly the classes 1, 6, A and B execute. */
  lemma ExecuteDecodedOk(m: Machine, opcode: u16)
    requires m.Valid()
    ensures ExecutionInBounds(OpcodeToInstruction(opcode))
    ensures Execute(m, OpcodeToInstruction(opcode)).Ok?
        <==> opcode / 0x1000 in {0x1, 0x6, 0xA, 0xB}
  {
    var instr := OpcodeToInstruction(opcode);
    assert forall t <- Targets(instr) :: InBounds(t);
  }

  /** 0x1NNN sets the PC to the byte stored at NNN, not to NNN. */
  lemma ExecuteJumpOpcode(m: Machine, nnn: nat)
    requires m.Valid() && nnn < 0x1000
    ensures Execute(m, OpcodeToInstruction(0x1000 + nnn)) == Ok(m.(pc := m.mem[nnn]))
  {
    DecodeJumpAndCall(nnn);
  }

  /** 0x6XNN sets VX to NN and changes nothing else. */
  lemma ExecuteLoadOpcode(m: Machine, x: nat, nn: nat)
    requires m.Valid() && x < 16 && nn < 0x100
    ensures Execute(m, OpcodeToInstruction(0x6000 + x * 0x100 + nn)) == Ok(m.(v := m.v[x := nn]))
  {
    DecodeRegisterConstant(x, nn);
  }

  /** 0xANNN sets I to NNN and changes nothing else. */
  lemma ExecuteSetIndexOpcode(m: Machine, nnn: nat)
    requires m.Valid() && nnn < 0x1000
    ensures Execute(m, OpcodeToInstruction(0xA000 + nnn)) == Ok(m.(i := nnn))
  {
    DecodeAddressForms(nnn);
  }

  /** 0xBNNN sets the PC to V0 + NNN, which never needs truncation. */
  lemma ExecuteSpecialJumpOpcode(m: Machine, nnn: nat)
    requires m.Valid() && nnn < 0x1000
    ensures m.v[0] + nnn <= 4350
    ensures Execute(m, OpcodeToInstruction(0xB000 + nnn)) == Ok(m.(pc := m.v[0] + nnn))
  {
    DecodeAddressForms(nnn);
  }
}
