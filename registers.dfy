/** The register file of src/chip8/registers.rs: V0..VF, the I register and the PC. */
module Registers {
  import opened Types

  const REGISTER_COUNT: nat := 16

  class Chip8Registers {
    const v: array<u8>
    var i: u16
    var pc: u16

    ghost predicate Valid() {
      v.Length == REGISTER_COUNT
    }

    /** `new`: every register zero except the PC, which starts at 0x200. */
    constructor ()
      ensures Valid() && fresh(v)
      ensures v[..] == seq(REGISTER_COUNT, _ => 0) && i == 0 && pc == 0x200
    {
      v := new u8[REGISTER_COUNT](_ => 0);
      i, pc := 0, 0x200;
    }

    /** `get_v_register`. */
    function GetVRegister(reg: nat): u8
      reads v
      requires Valid() && reg < REGISTER_COUNT
    {
      v[reg]
    }

    /** `*get_v_register_mut(reg) = val`: only V[reg] changes. */
    method SetVRegister(reg: nat, val: u8)
      requires Valid() && reg < REGISTER_COUNT
      modifies v
      ensures GetVRegister(reg) == val
      ensures v[..] == old(v[..])[reg := val]
      ensures i == old(i) && pc == old(pc)
    {
      v[reg] := val;
    }

    /** `*get_i_register_mut() = val`: I reads back as val; V and PC unchanged. */
    method SetIRegister(val: u16)
      modifies this`i
      ensures i == val
      ensures v[..] == old(v[..]) && pc == old(pc)
    {
      i := val;
    }

    /** `*get_pc_register_mut() = val`: PC reads back as val; V and I unchanged. */
    method SetPcRegister(val: u16)
      modifies this`pc
      ensures pc == val
      ensures v[..] == old(v[..]) && i == old(i)
    {
      pc := val;
    }

    /** `jump_to`. */
    method JumpTo(addr: u16)
      modifies this`pc
      ensures pc == addr
      ensures v[..] == old(v[..]) && i == old(i)
    {
      SetPcRegister(addr);
    }

    /** `skip_next_instr`: the u16 addition would overflow above 0xFFFD. */
    method SkipNextInstr()
      requires pc <= 0xFFFD
      modifies this`pc
      ensures pc == old(pc) + 2
      ensures v[..] == old(v[..]) && i == old(i)
    {
      SetPcRegister(pc + 2);
    }
  }
}
