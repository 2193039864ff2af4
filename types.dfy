/** Machine-width integer types and the Option type shared by every component. */
module Types {
  /** Rust `u8`: a byte. */
  type u8 = x: int | 0 <= x < 0x100

  /** Rust `u16`: an opcode, the I register, the program counter. */
  type u16 = x: int | 0 <= x < 0x1_0000

  /** Rust `Option<T>`. */
  datatype Option<T> = None | Some(value: T)
}
