/** Sprite construction, src/chip8/sprites.rs: memory bytes become rows of 8 pixels. */
module Sprites {
  import opened Types
  import opened Pixels
  import Memory

  const SPRITE_WIDTH: nat := 8

  /** `[Chip8Pixel; 8]`: one sprite row. */
  type Row = r: seq<Chip8Pixel> | |r| == SPRITE_WIDTH
    witness [Black, Black, Black, Black, Black, Black, Black, Black]

  /** `Chip8Sprite { pixels: Vec<[Chip8Pixel; 8]> }`. */
  datatype Chip8Sprite = Chip8Sprite(pixels: seq<Row>)

  /** `0x80 >> bit`: the mask of column `bit`, the most significant bit being column 0. */
  function ColumnMask(bit: nat): nat
    requires bit < SPRITE_WIDTH
  {
    [0x80, 0x40, 0x20, 0x10, 0x08, 0x04, 0x02, 0x01][bit]
  }

  /** `byte & (0x80 >> bit) > 0`: the single bit the mask selects is set. */
  predicate ColumnSet(byte: u8, bit: nat)
    requires bit < SPRITE_WIDTH
  {
    byte / ColumnMask(bit) % 2 == 1
  }

  /** The row of pixels one sprite byte stands for: a set bit is White. */
  function RowOf(byte: u8): (row: Row)
    ensures row[0] == White <==> byte >= 0x80
    ensures row[SPRITE_WIDTH - 1] == White <==> byte % 2 == 1
  {
    seq(SPRITE_WIDTH, bit requires 0 <= bit < SPRITE_WIDTH =>
      if ColumnSet(byte, bit) then White else Black)
  }

  /** The byte a row of pixels stands for: the inverse of RowOf. */
  function ByteOf(row: Row): nat {
    Weight(row, 0) + Weight(row, 1) + Weight(row, 2) + Weight(row, 3)
    + Weight(row, 4) + Weight(row, 5) + Weight(row, 6) + Weight(row, 7)
  }

  function Weight(row: Row, bit: nat): nat
    requires bit < SPRITE_WIDTH
  {
    if row[bit] == White then ColumnMask(bit) else 0
  }

  /** A byte of 0x00 gives an all-Black row and 0xFF an all-White row. */
  lemma RowOfExtremes()
    ensures forall bit :: 0 <= bit < SPRITE_WIDTH ==> RowOf(0x00)[bit] == Black
    ensures forall bit :: 0 <= bit < SPRITE_WIDTH ==> RowOf(0xFF)[bit] == White
  {
  }

  /** Dividing by 2^(k+1) is dividing by 2^k and then by 2. */
  lemma HalvingChain(byte: u8)
    ensures byte / 0x04 == byte / 0x02 / 2 && byte / 0x08 == byte / 0x04 / 2
    ensures byte / 0x10 == byte / 0x08 / 2 && byte / 0x20 == byte / 0x10 / 2
    ensures byte / 0x40 == byte / 0x20 / 2 && byte / 0x80 == byte / 0x40 / 2
    ensures byte / 0x80 < 2
  {
  }

  /** A number is twice its half plus its last bit. */
  lemma Halve(n: nat)
    ensures n == 2 * (n / 2) + n % 2 && n % 2 < 2
  {
  }

  /** A byte is the sum of its eight bits, each weighted by its mask. */
  lemma BinaryDigits(byte: u8)
    ensures byte == byte / 0x80 % 2 * 0x80 + byte / 0x40 % 2 * 0x40 + byte / 0x20 % 2 * 0x20
                  + byte / 0x10 % 2 * 0x10 + byte / 0x08 % 2 * 0x08 + byte / 0x04 % 2 * 0x04
                  + byte / 0x02 % 2 * 0x02 + byte % 2
  {
    HalvingChain(byte);
    var q1, q2, q3, q4 := byte / 0x02, byte / 0x04, byte / 0x08, byte / 0x10;
    var q5, q6, q7 := byte / 0x20, byte / 0x40, byte / 0x80;
    Halve(byte);
    Halve(q1);
    Halve(q2);
    Halve(q3);
    Halve(q4);
    Halve(q5);
    Halve(q6);
    assert q7 % 2 == q7;
  }

  /** No information is lost: the row determines the byte it came from. */
  lemma RowOfLossless(byte: u8)
    ensures ByteOf(RowOf(byte)) == byte
  {
    var row := RowOf(byte);
    assert Weight(row, 0) == byte / 0x80 % 2 * 0x80;
    assert Weight(row, 1) == byte / 0x40 % 2 * 0x40;
    assert Weight(row, 2) == byte / 0x20 % 2 * 0x20;
    assert Weight(row, 3) == byte / 0x10 % 2 * 0x10;
    assert Weight(row, 4) == byte / 0x08 % 2 * 0x08;
    assert Weight(row, 5) == byte / 0x04 % 2 * 0x04;
    assert Weight(row, 6) == byte / 0x02 % 2 * 0x02;
    assert Weight(row, 7) == byte % 2;
    BinaryDigits(byte);
  }

  /**
   * `Chip8Sprite::new`: row r is the pixel row of the byte at
   * `startingAddr + r`. The height assert and the memory assert on each
   * address read are the preconditions; memory is only read.
   */
  method NewSprite(memory: Memory.Chip8Memory, startingAddr: nat, spriteHeight: nat)
    returns (sprite: Chip8Sprite)
    requires memory.Valid()
    requires spriteHeight < 16
    requires spriteHeight == 0 || startingAddr + spriteHeight <= Memory.MEMORY_SIZE
    ensures |sprite.pixels| == spriteHeight
    ensures forall r :: 0 <= r < spriteHeight ==>
      sprite.pixels[r] == RowOf(memory.mem[startingAddr + r])
  {
    var pixels: seq<Row> := [];
    var r := 0;
    while r < spriteHeight
      invariant 0 <= r <= spriteHeight
      invariant |pixels| == r
      invariant forall k :: 0 <= k < r ==> pixels[k] == RowOf(memory.mem[startingAddr + k])
    {
      var byte := memory.GetMemoryAt(startingAddr + r);
      var pixelArray := new Chip8Pixel[SPRITE_WIDTH](_ => Black);
      var bit := 0;
      while bit < SPRITE_WIDTH
        invariant 0 <= bit <= SPRITE_WIDTH
        invariant forall c :: 0 <= c < bit ==> pixelArray[c] == RowOf(byte)[c]
      {
        pixelArray[bit] := if ColumnSet(byte, bit) then White else Black;
        bit := bit + 1;
      }
      assert pixelArray[..] == RowOf(byte);
      pixels := pixels + [pixelArray[..]];
      r := r + 1;
    }
    sprite := Chip8Sprite(pixels);
  }
}
