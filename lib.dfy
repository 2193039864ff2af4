/**
 * The entry points of src/lib.rs, re-expressed on an explicit `Chip8`
 * value instead of the process-wide singleton.
 */
module Lib {
  import opened Types
  import Memory
  import Timers
  import Vm

  /** Pairs of bytes as big-endian words: the `chunks(2).map(..)` pipeline on an even-length input. */
  function Chunks(padded: seq<u8>): (words: seq<u16>)
    requires |padded| % 2 == 0
    ensures |words| == |padded| / 2
    ensures forall i :: 0 <= i < |words| ==>
      words[i] == padded[2 * i] as int * 0x100 + padded[2 * i + 1] as int
  {
    if padded == [] then [] else [padded[0] as int * 0x100 + padded[1] as int] + Chunks(padded[2..])
  }

  /**
   * `program_8_to_16`: an odd-length input is padded with a zero byte,
   * then each pair of bytes becomes one big-endian opcode.
   */
  function Program8To16(program: seq<u8>): (words: seq<u16>)
    ensures |words| == (|program| + 1) / 2
    ensures forall i :: 0 <= i < |words| ==>
      words[i] == program[2 * i] as int * 0x100 + (if 2 * i + 1 < |program| then program[2 * i + 1] as int else 0)
  {
    var padded := if |program| % 2 == 1 then program + [0] else program;
    Chunks(padded)
  }

  /**
   * The high byte of word i is byte 2i and the low byte is byte 2i+1 (or
   * the zero pad), so no pair overflows or mixes with its neighbour.
   */
  lemma Program8To16Bytes(program: seq<u8>)
    ensures forall i :: 0 <= i < |Program8To16(program)| ==>
      && Program8To16(program)[i] / 0x100 == program[2 * i]
      && Program8To16(program)[i] % 0x100 == (if 2 * i + 1 < |program| then program[2 * i + 1] else 0)
  {
    var words := Program8To16(program);
    forall i | 0 <= i < |words|
      ensures words[i] / 0x100 == program[2 * i]
      ensures words[i] % 0x100 == (if 2 * i + 1 < |program| then program[2 * i + 1] else 0)
    {
      var hi, lo := program[2 * i], if 2 * i + 1 < |program| then program[2 * i + 1] else 0;
      assert words[i] == hi as int * 0x100 + lo as int;
      DivModByte(hi, lo);
    }
  }

  /** Splitting hi * 256 + lo at 256 gives back hi and lo. */
  lemma DivModByte(hi: u8, lo: u8)
    ensures (hi as int * 0x100 + lo as int) / 0x100 == hi && (hi as int * 0x100 + lo as int) % 0x100 == lo
  {
  }

  /**
   * Converting bytes to opcodes and loading them lays the bytes out
   * unchanged from 0x200, followed by the zero pad when the count is odd;
   * the rest of memory is untouched.
   */
  lemma LoadedBytes(mem: seq<u8>, program: seq<u8>)
    requires |mem| == Memory.MEMORY_SIZE && |program| <= 2 * 1792
    ensures Memory.ProgramFits(Program8To16(program))
    ensures forall k :: 0 <= k < |program| ==>
      Memory.LoadedImage(mem, Program8To16(program))[0x200 + k] == program[k]
    ensures |program| % 2 == 1 ==>
      Memory.LoadedImage(mem, Program8To16(program))[0x200 + |program|] == 0
    ensures forall k :: 0 <= k < Memory.MEMORY_SIZE && !(0x200 <= k < 0x200 + |program| + |program| % 2) ==>
      Memory.LoadedImage(mem, Program8To16(program))[k] == mem[k]
  {
    var words := Program8To16(program);
    Memory.LoadedImageLayout(mem, words);
    Program8To16Bytes(program);
    var image := Memory.LoadedImage(mem, words);
    forall k | 0 <= k < |program|
      ensures image[0x200 + k] == program[k]
    {
      var i := k / 2;
      if k % 2 == 0 {
        assert k == 2 * i;
      } else {
        assert k == 2 * i + 1;
      }
    }
    if |program| % 2 == 1 {
      var i := |program| / 2;
      assert |program| == 2 * i + 1;
      assert image[0x200 + 2 * i + 1] == words[i] % 0x100;
    }
  }

  /** `reset_pc`: the program counter goes back to 0x200; nothing else changes. */
  method ResetPc(c8: Vm.Chip8)
    requires c8.Valid()
    modifies c8.registers
    ensures c8.Valid()
    ensures c8.registers.pc == 0x200
    ensures c8.registers.i == old(c8.registers.i) && c8.registers.v[..] == old(c8.registers.v[..])
  {
    c8.registers.SetPcRegister(0x200);
  }

  /** `load_program`: the program is laid out from 0x200 over the current memory. */
  method LoadProgram(c8: Vm.Chip8, program: seq<u16>)
    requires c8.Valid() && Memory.ProgramFits(program)
    modifies c8.memory.mem
    ensures c8.Valid()
    ensures c8.memory.mem[..] == Memory.LoadedImage(old(c8.memory.mem[..]), program)
  {
    c8.memory.LoadProgramIntoMem(program);
  }

  /**
   * `update_keys_status`: key i becomes held exactly when entry i is 1, for
   * every entry given; later keys keep their state. More than 16 entries
   * would index past the key array.
   */
  method UpdateKeysStatus(c8: Vm.Chip8, keysStatus: seq<nat>)
    requires c8.Valid() && |keysStatus| <= 16
    modifies c8.input.keysStatus
    ensures c8.Valid()
    ensures forall k :: 0 <= k < |keysStatus| ==> (c8.input.keysStatus[k] <==> keysStatus[k] == 1)
    ensures forall k :: |keysStatus| <= k < 16 ==> c8.input.keysStatus[k] == old(c8.input.keysStatus[k])
  {
    var keysStatusC8 := c8.input.keysStatus;
    for i := 0 to |keysStatus|
      invariant forall k :: 0 <= k < i ==> (keysStatusC8[k] <==> keysStatus[k] == 1)
      invariant forall k :: i <= k < 16 ==> keysStatusC8[k] == old(keysStatusC8[k])
    {
      var keyBool := if keysStatus[i] == 1 then true else false;
      keysStatusC8[i] := keyBool;
    }
  }

  /**
   * `timer_tick_and_get_sound`: both timers tick once, and the answer is
   * whether the sound timer is still running, i.e. whether it was above 1.
   */
  method TimerTickAndGetSound(c8: Vm.Chip8) returns (sound: bool)
    requires c8.Valid()
    modifies c8.timers
    ensures c8.timers.delay == Timers.Tick(old(c8.timers.delay))
    ensures c8.timers.sound == Timers.Tick(old(c8.timers.sound))
    ensures sound <==> old(c8.timers.sound) > 1
  {
    c8.timers.TimerTick();
    sound := c8.timers.GetSound() > 0;
  }
}
