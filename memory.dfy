/** The 4 KB address space of src/chip8/memory.rs. */
module Memory {
  import opened Types

  const MEMORY_SIZE: nat := 4096
  /** Programs are laid out from this address on. */
  const PROGRAM_START: nat := 0x200

  /** `((opcode & 0xFF00) >> 8) as u8`: the number of whole 256s in the word. */
  function HighByte(w: u16): (h: u8)
    ensures h as int * 0x100 <= w < h as int * 0x100 + 0x100
  {
    w / 0x100
  }

  /** `(opcode & 0x00FF) as u8`: what is left once the high byte is taken out. */
  function LowByte(w: u16): (l: u8)
    ensures HighByte(w) as int * 0x100 + l as int == w
  {
    w % 0x100
  }

  /** A blank address space. */
  function Zeros(): (s: seq<u8>)
    ensures |s| == MEMORY_SIZE
  {
    seq(MEMORY_SIZE, _ => 0)
  }

  /** Loading `program` fits: the last opcode ends at or before address 4096. */
  predicate ProgramFits(program: seq<u16>) {
    PROGRAM_START + 2 * |program| <= MEMORY_SIZE
  }

  /**
   * The memory image after `load_program_into_mem(program)` on `mem`:
   * opcode i occupies 0x200 + 2i (high byte) and 0x201 + 2i (low byte),
   * every other byte keeps its value.
   */
  function LoadedImage(mem: seq<u8>, program: seq<u16>): (r: seq<u8>)
    requires |mem| == MEMORY_SIZE && ProgramFits(program)
    ensures |r| == MEMORY_SIZE
  {
    seq(MEMORY_SIZE, k requires 0 <= k < MEMORY_SIZE => LoadedByte(mem, program, k))
  }

  /** Byte k of `LoadedImage(mem, program)`. */
  function LoadedByte(mem: seq<u8>, program: seq<u16>, k: nat): u8
    requires |mem| == MEMORY_SIZE && ProgramFits(program) && k < MEMORY_SIZE
  {
    if PROGRAM_START <= k < PROGRAM_START + 2 * |program| then
      var w := program[(k - PROGRAM_START) / 2];
      if (k - PROGRAM_START) % 2 == 0 then HighByte(w) else LowByte(w)
    else mem[k]
  }

  /**
   * Loading one more opcode writes its two bytes and leaves every other
   * byte of the image as it was.
   */
  lemma LoadedByteStep(mem: seq<u8>, program: seq<u16>, i: nat)
    requires |mem| == MEMORY_SIZE && ProgramFits(program) && i < |program|
    ensures forall k :: 0 <= k < MEMORY_SIZE && k != PROGRAM_START + 2 * i && k != PROGRAM_START + 2 * i + 1 ==>
      LoadedByte(mem, program[..i + 1], k) == LoadedByte(mem, program[..i], k)
    ensures LoadedByte(mem, program[..i + 1], PROGRAM_START + 2 * i) == HighByte(program[i])
    ensures LoadedByte(mem, program[..i + 1], PROGRAM_START + 2 * i + 1) == LowByte(program[i])
  {
    assert (2 * i) / 2 == i && (2 * i) % 2 == 0;
    assert (2 * i + 1) / 2 == i && (2 * i + 1) % 2 == 1;
  }

  /** Opcode i is stored big-endian at 0x200 + 2i, and nothing outside the program area changes. */
  lemma LoadedImageLayout(mem: seq<u8>, program: seq<u16>)
    requires |mem| == MEMORY_SIZE && ProgramFits(program)
    ensures forall i :: 0 <= i < |program| ==>
      && LoadedImage(mem, program)[PROGRAM_START + 2 * i] == program[i] / 0x100
      && LoadedImage(mem, program)[PROGRAM_START + 2 * i + 1] == program[i] % 0x100
      && LoadedImage(mem, program)[PROGRAM_START + 2 * i] as int * 0x100
         + LoadedImage(mem, program)[PROGRAM_START + 2 * i + 1] as int == program[i]
    ensures forall k :: 0 <= k < MEMORY_SIZE && !(PROGRAM_START <= k < PROGRAM_START + 2 * |program|) ==>
      LoadedImage(mem, program)[k] == mem[k]
  {
    var r := LoadedImage(mem, program);
    forall i | 0 <= i < |program|
      ensures r[PROGRAM_START + 2 * i] == program[i] / 0x100
      ensures r[PROGRAM_START + 2 * i + 1] == program[i] % 0x100
    {
      assert r[PROGRAM_START + 2 * i] == LoadedByte(mem, program, PROGRAM_START + 2 * i);
      assert r[PROGRAM_START + 2 * i + 1] == LoadedByte(mem, program, PROGRAM_START + 2 * i + 1);
      assert (2 * i) / 2 == i && (2 * i) % 2 == 0;
      assert (2 * i + 1) / 2 == i && (2 * i + 1) % 2 == 1;
    }
    forall k | 0 <= k < MEMORY_SIZE && !(PROGRAM_START <= k < PROGRAM_START + 2 * |program|)
      ensures r[k] == mem[k]
    {
      assert r[k] == LoadedByte(mem, program, k);
    }
  }

  class Chip8Memory {
    const mem: array<u8>
    /** Declared by the source but never read or written: push and pop do not exist. */
    var stackPtr: u16

    ghost predicate Valid() {
      mem.Length == MEMORY_SIZE
    }

    /** `new`: 4096 zero bytes and a zero stack pointer. */
    constructor ()
      ensures Valid() && fresh(mem)
      ensures mem[..] == Zeros() && stackPtr == 0
    {
      mem := new u8[MEMORY_SIZE](_ => 0);
      stackPtr := 0;
    }

    /** `get_memory_at`. */
    function GetMemoryAt(addr: nat): u8
      reads mem
      requires Valid() && addr < MEMORY_SIZE
    {
      mem[addr]
    }

    /**
     * `*get_memory_at_mut(addr) = b`: the byte at addr reads back as b and
     * every other byte is unchanged.
     */
    method SetMemoryAt(addr: nat, b: u8)
      requires Valid() && addr < MEMORY_SIZE
      modifies mem
      ensures GetMemoryAt(addr) == b
      ensures forall k :: 0 <= k < MEMORY_SIZE && k != addr ==> mem[k] == old(mem[k])
      ensures mem[..] == old(mem[..])[addr := b]
    {
      mem[addr] := b;
    }

    /** `load_program_into_mem`: the asserts of each write require the program to fit. */
    method LoadProgramIntoMem(program: seq<u16>)
      requires Valid() && ProgramFits(program)
      modifies mem
      ensures mem[..] == LoadedImage(old(mem[..]), program)
      ensures stackPtr == old(stackPtr)
    {
      ghost var before := mem[..];
      var i := 0;
      while i < |program|
        invariant 0 <= i <= |program|
        invariant forall k :: 0 <= k < MEMORY_SIZE ==> mem[k] == LoadedByte(before, program[..i], k)
      {
        var higher, lower := HighByte(program[i]), LowByte(program[i]);
        var highAddr, lowAddr := PROGRAM_START + 2 * i, PROGRAM_START + 1 + 2 * i;
        SetMemoryAt(highAddr, higher);
        SetMemoryAt(lowAddr, lower);
        LoadedByteStep(before, program, i);
        i := i + 1;
      }
      assert program[..i] == program;
      assert mem[..] == LoadedImage(before, program);
    }
  }
}
