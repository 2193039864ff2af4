# CHIP-8 emulator core, modelled in Dafny

This project models the core of `chip8-rs`, a CHIP-8 interpreter written in
Rust and compiled to WebAssembly. A CHIP-8 machine has:

- 4 KiB of byte memory, with programs loaded big-endian from address 0x200;
- sixteen 8-bit V registers, a 16-bit index register I and a 16-bit program
  counter;
- a delay timer and a sound timer, both 8-bit counters that count down to zero;
- sixteen keys;
- a 64×32 display of White/Black pixels onto which 8-pixel-wide sprites are
  drawn by XOR.

Each Rust module becomes one Dafny module:

- `Cpu` (`src/chip8/cpu.rs`): the instruction and operand types and the
  opcode decoder `OpcodeToInstruction`. It also holds the evaluate, assign and
  execute semantics as pure functions over a `Machine` value, which is memory
  plus registers. The arms of the evaluate, assign and execute operations
  that are `todo!()` in the source produce `Outcome.Unimplemented`; the
  decoder itself has no such arm.
- `Memory`, `Registers`, `Timers`, `Input`, `Output`: classes holding the
  same fields as the Rust structs. Fixed-size Rust arrays become Dafny arrays
  that the methods update in place. Each method is proved against a pure
  description, for example `LoadedImage` for the program loader and `Drawn`
  and `Collides` for sprite drawing.
- `Pixels`: the pixel colour type. `Sprites` (`src/chip8/sprites.rs`) turns
  memory bytes into rows of eight pixels.
- `Vm` (`src/chip8.rs`): the `Chip8` machine, which owns the five components.
  It carries `set_cpu_instr_target` and `execute_instruction`, both proved to
  act on memory and registers exactly as `Cpu.SetTarget` and `Cpu.Execute`
  say.
- `Lib` (`src/lib.rs`): the exported entry points. They act on an explicit
  `Chip8` value rather than a global instance.

A Rust `assert!` becomes a `requires`. Rust's integer casts (`as u8`, `as u16`)
are written out as `% 0x100` and `% 0x1_0000`.

## Model

| member | source | states |
|---|---|---|
| Cpu.OpcodeToInstruction | src/chip8/cpu.rs:51-225 | every decoded register index is below 16 and every address below 4096; constants are at most 0xFFF; `Unknown` is produced only for class-F opcodes and carries the opcode unchanged |
| Cpu.AluOperationFor | src/chip8/cpu.rs:116-127 | the low nibble N of 8XYN selects an ALU operation; the result is Unknown exactly when N is not 0-7 or E |
| Cpu.DecodeSystem | src/chip8/cpu.rs:62-75 | 00E0 is ClearDisplay, 00EE is Return, any other 0NNN is CallMachineCode(NNN) |
| Cpu.DecodeJumpAndCall | src/chip8/cpu.rs:78-85 | 1NNN is Jump(NNN) and 2NNN is CallSubroutine(NNN) |
| Cpu.DecodeCompare | src/chip8/cpu.rs:88-99 | 3XNN/4XNN compare Vx with NN for equal/not equal; 5XYN/9XYN compare Vx with Vy, whatever N is |
| Cpu.DecodeRegisterConstant | src/chip8/cpu.rs:102-151 | 6XNN assigns NN to Vx, 7XNN adds NN to Vx, CXNN assigns a random number masked by NN |
| Cpu.DecodeAlu | src/chip8/cpu.rs:115-134 | 8XYN is an ALU operation on Vx, Vy whose operation is picked by N (0-7, E), with Unknown exactly for the other seven values of N |
| Cpu.DecodeAddressForms | src/chip8/cpu.rs:137-145 | ANNN sets I to NNN and BNNN is a special jump by NNN |
| Cpu.DecodeDraw | src/chip8/cpu.rs:154-158 | DXYN draws at (Vx, Vy) with height N |
| Cpu.DecodeKeySkip | src/chip8/cpu.rs:161-165 | EXNN compares the current key with Vx, for equality exactly when NN is 9E |
| Cpu.DecodeTimersAndKeyRead | src/chip8/cpu.rs:171-188 | FX07/FX0A read the delay timer/key into Vx; FX15/FX18 set the delay/sound timer from Vx |
| Cpu.DecodeIndexForms | src/chip8/cpu.rs:191-201 | FX1E adds Vx to I and FX29 points I at sprite x |
| Cpu.DecodeMemoryForms | src/chip8/cpu.rs:204-216 | FX33, FX55 and FX65 are BCD, register dump and register load of Vx |
| Cpu.DecodeUnknownIff | src/chip8/cpu.rs:218-223 | an opcode decodes to Unknown if and only if it is class F with a low byte outside the nine known ones |
| Cpu.Evaluate | src/chip8/cpu.rs:228-240 | reading succeeds exactly for I, V registers, memory and constants; V registers and memory yield a byte, every read fits 16 bits |
| Cpu.SetTarget | src/chip8/cpu.rs:243-253 | writing succeeds exactly for I, V registers and memory, and never moves the program counter |
| Cpu.SetThenEvaluate | src/chip8/cpu.rs:245-247 | reading back a written destination gives the value truncated to the destination's width (16 bits for I, 8 otherwise) |
| Cpu.SetTargetFrame | src/chip8/cpu.rs:243-253 | a write changes no other destination and not the program counter |
| Cpu.Execute | src/chip8/cpu.rs:256-312 | only Jump, Assignment and SpecialJump can succeed; jumps change nothing but the program counter |
| Cpu.ExecuteAssignment | src/chip8/cpu.rs:281-284 | an assignment stores the evaluated source, truncated, in the destination and leaves every other destination and the program counter alone |
| Cpu.ExecuteDecodedOk | src/chip8/cpu.rs:256-312 | a decoded opcode executes without reaching `todo!()` if and only if its class is 1, 6, A or B |
| Cpu.ExecuteJumpOpcode | src/chip8/cpu.rs:268-272 | 1NNN sets the program counter to the byte stored at NNN, not to NNN |
| Cpu.ExecuteLoadOpcode | src/chip8/cpu.rs:281-284 | 6XNN sets Vx to NN and changes nothing else |
| Cpu.ExecuteSetIndexOpcode | src/chip8/cpu.rs:281-284 | ANNN sets I to NNN and changes nothing else |
| Cpu.ExecuteSpecialJumpOpcode | src/chip8/cpu.rs:290-295 | BNNN sets the program counter to V0 + NNN, which never exceeds 4350, so the 16-bit cast never wraps |
| Memory.HighByte | src/chip8/memory.rs:34 | the high byte h of an opcode is its number of whole 256s: h × 256 ≤ w < h × 256 + 256 |
| Memory.LowByte | src/chip8/memory.rs:34 | the low byte is what remains: high byte × 256 + low byte = w |
| Memory.LoadedByteStep | src/chip8/memory.rs:36-41 | one more iteration of the loader writes opcode i's high and low byte at 0x200 + 2i and 0x201 + 2i and nothing else |
| Memory.LoadedImageLayout | src/chip8/memory.rs:31-43 | opcode i lands big-endian at 0x200 + 2i and 0x201 + 2i; every byte outside the program area keeps its value |
| Memory.Chip8Memory.constructor | src/chip8/memory.rs:9-14 | all 4096 bytes are zero and the stack pointer is zero |
| Memory.Chip8Memory.GetMemoryAt | src/chip8/memory.rs:17-21 | requires addr < 4096 (the assert); returns the byte stored at addr, which `SetMemoryAt` reads back |
| Memory.Chip8Memory.SetMemoryAt | src/chip8/memory.rs:24-28 | the addressed byte takes the new value and every other byte is unchanged |
| Memory.Chip8Memory.LoadProgramIntoMem | src/chip8/memory.rs:31-43 | memory becomes `LoadedImage` of its old contents; the stack pointer is unchanged |
| Registers.Chip8Registers.constructor | src/chip8/registers.rs:10-12 | all V registers and I are zero and the program counter is 0x200 |
| Registers.Chip8Registers.GetVRegister | src/chip8/registers.rs:15-19 | requires reg < 16 (the assert); returns Vreg, which `SetVRegister` reads back |
| Registers.Chip8Registers.SetVRegister | src/chip8/registers.rs:22-26 | only Vreg changes |
| Registers.Chip8Registers.SetIRegister | src/chip8/registers.rs:34-36 | only I changes |
| Registers.Chip8Registers.SetPcRegister | src/chip8/registers.rs:44-46 | only the program counter changes |
| Registers.Chip8Registers.JumpTo | src/chip8/registers.rs:49-51 | the program counter becomes the address; V and I unchanged |
| Registers.Chip8Registers.SkipNextInstr | src/chip8/registers.rs:54-56 | the program counter advances by 2; V and I unchanged |
| Timers.Tick | src/chip8/timers.rs:34-40 | one tick of one counter: the new value is the old one or one less, and it stays equal exactly when the counter was already zero |
| Timers.TicksCountDown | src/chip8/timers.rs:33-41 | after k ticks a counter that started at c holds c - k, or 0 once k ≥ c: it never underflows |
| Timers.Chip8Timers.constructor | src/chip8/timers.rs:8-10 | both timers start at zero |
| Timers.Chip8Timers.GetDelay | src/chip8/timers.rs:13-15 | returns the delay timer; no precondition |
| Timers.Chip8Timers.GetSound | src/chip8/timers.rs:23-25 | returns the sound timer; no precondition |
| Timers.Chip8Timers.SetDelay | src/chip8/timers.rs:18-20 | only the delay timer changes |
| Timers.Chip8Timers.SetSound | src/chip8/timers.rs:28-30 | only the sound timer changes |
| Timers.Chip8Timers.TimerTick | src/chip8/timers.rs:33-41 | each positive timer drops by one and a zero timer stays zero |
| Input.FirstPressed | src/chip8/input.rs:24-31 | the result is the lowest held key at or after the start; None exactly when no such key is held |
| Input.Chip8Input.constructor | src/chip8/input.rs:7-11 | no key is held |
| Input.Chip8Input.GetKeysStatus | src/chip8/input.rs:14-16 | returns the state of all 16 keys, in key order |
| Input.Chip8Input.GetCurrentKey | src/chip8/input.rs:24-31 | the lowest-numbered held key; None if and only if no key is held |
| Pixels.Flip | src/chip8/output.rs:40 | toggling always changes the pixel's colour |
| Sprites.RowOf | src/chip8/sprites.rs:26-36 | one sprite byte as eight pixels, most significant bit first: the first pixel is White exactly when the byte is at least 0x80 and the last exactly when it is odd |
| Sprites.RowOfExtremes | src/chip8/sprites.rs:24-36 | byte 0x00 gives eight Black pixels and 0xFF eight White ones |
| Sprites.RowOfLossless | src/chip8/sprites.rs:24-36 | reading the row back as bits (bit 7 first) gives the original byte: no bit is lost or moved |
| Sprites.NewSprite | src/chip8/sprites.rs:10-43 | the sprite has `height` rows, and row r is the pixel image of the byte at start + r |
| Output.ToggledChangesOnePixel | src/chip8/output.rs:32-44 | toggling flips exactly the pixel at (x, y) |
| Output.ToggleTwice | src/chip8/output.rs:32-44 | toggling the same pixel twice restores the display |
| Output.DrawnChangesCovered | src/chip8/output.rs:47-59 | drawing flips exactly the on-screen cells under the sprite's White pixels |
| Output.DrawTwice | src/chip8/output.rs:47-59 | drawing the same sprite twice at the same place restores the display |
| Output.SecondDrawCollides | src/chip8/output.rs:47-59 | redrawing a sprite reports a collision if and only if one of its White pixels covered a cell that was Black before the first draw |
| Output.DrawTwiceOnBlank | src/chip8/output.rs:47-59 | on a blank display the first draw reports no collision, and the second reports one if and only if the sprite has a White pixel |
| Output.Chip8Output.constructor | src/chip8/output.rs:16-20 | the display is all Black |
| Output.Chip8Output.ClearDisplay | src/chip8/output.rs:23-29 | afterwards every pixel is Black |
| Output.Chip8Output.DrawSpriteRow | src/chip8/output.rs:51-55 | one pass of the inner loop advances the display and the collision flag by one sprite row of `Drawn`/`Collides` |
| Output.Chip8Output.TogglePixel | src/chip8/output.rs:32-44 | the display becomes `Toggled` of the old one; the answer is whether the pixel was White |
| Output.Chip8Output.DrawSpriteOnDisplay | src/chip8/output.rs:47-59 | the display becomes `Drawn` of the old one; the answer is whether any White sprite pixel landed on a White cell |
| Vm.InitialImageContents | src/chip8.rs:27-39 | a new machine holds the program big-endian from 0x200 and zero everywhere else, including the font area 0x000-0x04F |
| Vm.Chip8.constructor | src/chip8.rs:27-39 | fresh components in their initial state, with the program loaded |
| Vm.Chip8.EvaluateCpuInstrTarget | src/chip8/cpu.rs:228-240 | reads only the one register, memory byte or constant named, and the result is `Cpu.Evaluate` of the machine; the `todo!()` operands give Unimplemented |
| Vm.Chip8.SetCpuInstrTarget | src/chip8/cpu.rs:243-253 | memory and registers change exactly as `Cpu.SetTarget` says; a `todo!()` destination changes nothing |
| Vm.Chip8.ExecuteInstruction | src/chip8/cpu.rs:256-312 | memory and registers change exactly as `Cpu.Execute` says; a `todo!()` instruction changes nothing |
| Lib.Chunks | src/lib.rs:53-56 | word i of an even-length input is byte 2i × 256 + byte 2i+1 |
| Lib.Program8To16 | src/lib.rs:50-59 | ⌈n/2⌉ words; word i is byte 2i × 256 + byte 2i+1, with 0 as the last low byte when n is odd |
| Lib.Program8To16Bytes | src/lib.rs:55 | each word splits back into its two bytes: high part byte 2i, low part byte 2i+1 or the zero pad |
| Lib.LoadedBytes | src/lib.rs:50-59 | loading the converted program puts byte k at 0x200 + k, the zero pad after an odd count, and leaves the rest of memory alone |
| Lib.ResetPc | src/lib.rs:36-40 | the program counter becomes 0x200; V and I unchanged |
| Lib.LoadProgram | src/lib.rs:62-68 | memory becomes `LoadedImage` of its current contents |
| Lib.UpdateKeysStatus | src/lib.rs:94-104 | key i is held exactly when entry i is 1, for each entry given; later keys keep their state |
| Lib.TimerTickAndGetSound | src/lib.rs:107-113 | both timers tick once; the answer is true exactly when the sound timer was above 1 before the call |

## Left out

- The global `Mutex` instance, the `wasm_bindgen` exports, the panic hook, `alert` and `init_debug` (src/lib.rs:1-25) are concurrency and foreign-function plumbing. The `Lib` methods take the machine as a parameter instead.
- `reset_inst` (src/lib.rs:27-33) calls a zero-argument `Chip8::new` and `load_fonts_into_mem`, which do not exist in the sources. These functions are not part of this model, and neither is the font table.
- `execute_instructions` (src/lib.rs:70-77) loops over `execute_next_instruction`, which does not exist in the sources, so there is no fetch/step loop to model.
- `get_display_as_str` and `get_display_as_ints` (src/lib.rs:79-91) call display functions that are not in the sources. They are not part of this model.
- `get_default_program` (src/lib.rs:42-47) embeds a binary file at compile time. Only the `program_8_to_16` step it calls is modelled.
- The stack push/pop (src/chip8/memory.rs:45-46) is only a comment. `stackPtr` is kept as a field that nothing changes.
- `print_display` (src/chip8/output.rs:62-70) is console output.
- Random numbers (`RandomNum`), the key, timer and sprite-address operands, and every `todo!()` arm of `evaluate_cpu_instr_target`, `set_cpu_instr_target` and `execute_instruction` give `Unimplemented`. The Rust code panics there. The model records that the arm is unimplemented and leaves the machine unchanged.
- Panics from `assert!` and from array indexing are preconditions:
  - memory addresses below 4096;
  - register indices below 16;
  - sprite height below 16;
  - at most 1792 opcodes per program;
  - at most 16 key entries;
  - pixel coordinates on screen.
- `Cpu.ExecuteDecodedOk` and `Cpu.Execute` are stated over `Machine` values. Timers, display and keys are outside that view. `Vm.Chip8.ExecuteInstruction` shows, through its `modifies` clause, that execution does not touch them.
- Registers.Chip8Registers.SkipNextInstr requires the program counter to be at most 0xFFFD. A debug build panics on the `u16` overflow of `pc + 2`. A release build, the WebAssembly target among them, wraps it modulo 0x10000 instead. The model covers neither: it does not promise the wrapped value.
- Where the code differs from the usual CHIP-8 definition, the model follows the code:
  - 1NNN jumps to the byte stored at NNN, not to NNN;
  - a new machine has no font table;
  - 5XYN and 9XYN ignore N;
  - EXNN with NN other than 9E becomes a "not equal" skip;
  - an unknown 8XYN operation decodes to an `AluOperation` with op `Unknown` rather than to `Unknown`;
  - drawing does not wrap around the screen edge; a pixel off screen would panic, so `DrawSpriteOnDisplay` requires every White pixel to be on screen.
- The collision property is stated exactly. A second draw of the same sprite reports a collision only if some White pixel covered a cell that was Black before the first draw. This always happens on a blank display (`Output.DrawTwiceOnBlank`), but not in general.
