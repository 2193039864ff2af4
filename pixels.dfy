/**
 * The pixel colour of src/chip8/output.rs. It has a module of its own because
 * both the display (module Output) and the sprites (module Sprites) use it,
 * and Output also uses Sprites.
 */
module Pixels {
  datatype Chip8Pixel = White | Black

  /** The flip `toggle_pixel` applies: White becomes Black and anything else White. */
  function Flip(p: Chip8Pixel): (q: Chip8Pixel)
    ensures q != p
  {
    if p == White then Black else White
  }
}
