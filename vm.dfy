/**
 * The virtual machine of src/chip8.rs, with the two methods of
 * src/chip8/cpu.rs that change it: `set_cpu_instr_target` and
 * `execute_instruction`. They are proved against `Cpu.SetTarget` and
 * `Cpu.Execute` on the `Machine` view of memory and registers.
 */
module Vm {
  import opened Types
  import opened Cpu
  import Memory
  import Registers
  import Timers
  import Input
  import Output

  /** The memory image `Chip8::new(program)` starts from: no font table, just the program. */
  function InitialImage(program: seq<u16>): (mem: seq<u8>)
    requires Memory.ProgramFits(program)
    ensures |mem| == Memory.MEMORY_SIZE
  {
    Memory.LoadedImage(Memory.Zeros(), program)
  }

  /**
   * A fresh machine holds the program big-endian from 0x200 and zero
   * everywhere else; in particular the font area 0x000-0x04F is zero.
   */
  lemma InitialImageContents(program: seq<u16>)
    requires Memory.ProgramFits(program)
    ensures forall i :: 0 <= i < |program| ==>
      InitialImage(program)[0x200 + 2 * i] as int * 0x100 + InitialImage(program)[0x201 + 2 * i] as int == program[i]
    ensures forall k :: 0 <= k < Memory.MEMORY_SIZE && !(0x200 <= k < 0x200 + 2 * |program|) ==>
      InitialImage(program)[k] == 0
    ensures forall k :: 0 <= k < 0x50 ==> InitialImage(program)[k] == 0
  {
    Memory.LoadedImageLayout(Memory.Zeros(), program);
  }

  class Chip8 {
    const memory: Memory.Chip8Memory
    const registers: Registers.Chip8Registers
    const timers: Timers.Chip8Timers
    const output: Output.Chip8Output
    const input: Input.Chip8Input

    ghost predicate Valid() {
      memory.Valid() && registers.Valid() && output.Valid() && input.Valid()
    }

    /** The memory bytes and registers, as the value `Cpu` reasons about. */
    ghost function CpuView(): (m: Machine)
      reads memory.mem, registers, registers.v
      requires Valid()
      ensures m.Valid()
    {
      Machine(memory.mem[..], registers.v[..], registers.i, registers.pc)
    }

    /**
     * `Chip8::new(program)`: fresh components, then the program loaded at
     * 0x200, whose assert requires at most 1792 opcodes.
     */
    constructor (program: seq<u16>)
      requires Memory.ProgramFits(program)
      ensures Valid()
      ensures fresh(memory) && fresh(memory.mem) && fresh(registers) && fresh(registers.v)
      ensures fresh(timers) && fresh(output) && fresh(output.display)
      ensures fresh(input) && fresh(input.keysStatus)
      ensures memory.mem[..] == InitialImage(program) && memory.stackPtr == 0
      ensures registers.v[..] == seq(16, _ => 0) && registers.i == 0 && registers.pc == 0x200
      ensures timers.delay == 0 && timers.sound == 0
      ensures output.Screen() == Output.Blank()
      ensures forall k :: 0 <= k < Input.KEY_COUNT ==> !input.keysStatus[k]
    {
      memory := new Memory.Chip8Memory();
      registers := new Registers.Chip8Registers();
      timers := new Timers.Chip8Timers();
      output := new Output.Chip8Output();
      input := new Input.Chip8Input();
      new;
      memory.LoadProgramIntoMem(program);
    }

    /**
     * `evaluate_cpu_instr_target`: reads the one register, memory byte or
     * constant the operand names; the other operands are `todo!()`.
     */
    method EvaluateCpuInstrTarget(target: CpuInstrTarget) returns (r: Outcome<nat>)
      requires Valid() && InBounds(target)
      ensures r == Evaluate(CpuView(), target)
    {
      match target
      case IRegister => r := Ok(registers.i as nat);
      case VRegister(reg) => r := Ok(registers.GetVRegister(reg) as nat);
      case MemoryAddress(addr) => r := Ok(memory.GetMemoryAt(addr) as nat);
      case Constant(val) => r := Ok(val as nat);
      case _ => r := Unimplemented;
    }

    /**
     * `set_cpu_instr_target`: writes I, a V register or a memory byte, each
     * truncated to its width; every other destination is `todo!()` and
     * changes nothing.
     */
    method SetCpuInstrTarget(target: CpuInstrTarget, val: nat) returns (r: Outcome<()>)
      requires Valid() && InBounds(target)
      modifies registers, registers.v, memory.mem
      ensures Valid()
      ensures SetTarget(old(CpuView()), target, val).Ok? ==>
        r == Ok(()) && CpuView() == SetTarget(old(CpuView()), target, val).value
      ensures SetTarget(old(CpuView()), target, val).Unimplemented? ==>
        r == Unimplemented && CpuView() == old(CpuView())
    {
      match target
      case IRegister =>
        registers.SetIRegister(val % 0x1_0000);
        r := Ok(());
      case VRegister(reg) =>
        registers.SetVRegister(reg, val % 0x100);
        r := Ok(());
      case MemoryAddress(addr) =>
        memory.SetMemoryAt(addr, val % 0x100);
        r := Ok(());
      case _ =>
        r := Unimplemented;
    }

    /**
     * `execute_instruction`: Jump, Assignment and SpecialJump change the
     * machine as `Execute` says; every other instruction is `todo!()` and
     * changes nothing. Timers, display and keys are never touched.
     */
    method ExecuteInstruction(instr: CpuInstruction) returns (r: Outcome<()>)
      requires Valid() && ExecutionInBounds(instr)
      modifies registers, registers.v, memory.mem
      ensures Valid()
      ensures Execute(old(CpuView()), instr).Ok? ==>
        r == Ok(()) && CpuView() == Execute(old(CpuView()), instr).value
      ensures Execute(old(CpuView()), instr).Unimplemented? ==>
        r == Unimplemented && CpuView() == old(CpuView())
    {
      match instr
      case Jump(addr) =>
        var a := EvaluateCpuInstrTarget(addr);
        if a.Ok? {
          registers.SetPcRegister(a.value % 0x1_0000);
          r := Ok(());
        } else {
          r := Unimplemented;
        }
      case Assignment(to, from) =>
        var fromVal := EvaluateCpuInstrTarget(from);
        if fromVal.Ok? {
          r := SetCpuInstrTarget(to, fromVal.value);
        } else {
          r := Unimplemented;
        }
      case SpecialJump(offset) =>
        var v0Val := registers.GetVRegister(0);
        var offsetVal := EvaluateCpuInstrTarget(offset);
        if offsetVal.Ok? {
          registers.SetPcRegister((v0Val + offsetVal.value) % 0x1_0000);
          r := Ok(());
        } else {
          r := Unimplemented;
        }
      case _ =>
        r := Unimplemented;
    }
  }
}
