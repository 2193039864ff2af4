/**
 * The 64x32 display of src/chip8/output.rs and its XOR sprite drawing. The
 * source does not wrap coordinates: every pixel it toggles must lie on the
 * screen.
 */
module Output {
  import opened Pixels
  import opened Sprites

  const WIDTH: nat := 64
  const HEIGHT: nat := 32

  /** A display as a value: HEIGHT rows of WIDTH pixels, indexed `g[y][x]`. */
  type Grid = seq<seq<Chip8Pixel>>

  predicate IsGrid(g: Grid) {
    |g| == HEIGHT && forall y :: 0 <= y < HEIGHT ==> |g[y]| == WIDTH
  }

  /** Every pixel Black. */
  function Blank(): (g: Grid)
    ensures IsGrid(g)
  {
    seq(HEIGHT, _ => seq(WIDTH, _ => Black))
  }

  /** The display after `toggle_pixel(x, y)`. */
  function Toggled(g: Grid, x: nat, y: nat): (g': Grid)
    requires IsGrid(g) && x < WIDTH && y < HEIGHT
    ensures IsGrid(g')
  {
    g[y := g[y][x := Flip(g[y][x])]]
  }

  /** Toggling flips exactly pixel (x, y) and leaves every other pixel alone. */
  lemma ToggledChangesOnePixel(g: Grid, x: nat, y: nat)
    requires IsGrid(g) && x < WIDTH && y < HEIGHT
    ensures forall r, c :: 0 <= r < HEIGHT && 0 <= c < WIDTH ==>
      (Toggled(g, x, y)[r][c] != g[r][c] <==> r == y && c == x)
  {
  }

  /** Toggling the same pixel twice restores the display. */
  lemma ToggleTwice(g: Grid, x: nat, y: nat)
    requires IsGrid(g) && x < WIDTH && y < HEIGHT
    ensures Toggled(Toggled(g, x, y), x, y) == g
  {
    var g' := Toggled(Toggled(g, x, y), x, y);
    assert g'[y] == g[y];
  }

  // ---------------------------------------------------------------------------
  // Drawing a sprite
  // ---------------------------------------------------------------------------

  /**
   * The draw asserts hold: every White sprite pixel, placed at (x + j, y + i),
   * is on the screen. Black pixels are never toggled and may lie off it.
   */
  predicate Fits(s: Chip8Sprite, x: nat, y: nat) {
    forall i, j :: 0 <= i < |s.pixels| && 0 <= j < SPRITE_WIDTH && s.pixels[i][j] == White ==>
      x + j < WIDTH && y + i < HEIGHT
  }

  /**
   * Cell (r, c) is hit by a White sprite pixel among the first k the draw
   * loop visits, rows outer and columns inner.
   */
  predicate CoveredBefore(s: Chip8Sprite, x: nat, y: nat, r: nat, c: nat, k: nat) {
    && y <= r < y + |s.pixels| && x <= c < x + SPRITE_WIDTH
    && (r - y) * SPRITE_WIDTH + (c - x) < k
    && s.pixels[r - y][c - x] == White
  }

  /** Cell (r, c) is hit by some White pixel of the sprite drawn at (x, y). */
  predicate Covered(s: Chip8Sprite, x: nat, y: nat, r: nat, c: nat) {
    CoveredBefore(s, x, y, r, c, |s.pixels| * SPRITE_WIDTH)
  }

  /** The display after the first k steps of the draw loop. */
  function DrawnBefore(g: Grid, s: Chip8Sprite, x: nat, y: nat, k: nat): (g': Grid)
    requires IsGrid(g)
    ensures IsGrid(g')
  {
    seq(HEIGHT, r requires 0 <= r < HEIGHT =>
      seq(WIDTH, c requires 0 <= c < WIDTH =>
        if CoveredBefore(s, x, y, r, c, k) then Flip(g[r][c]) else g[r][c]))
  }

  /** Some White pixel among the first k visited lands on a White cell of g. */
  predicate CollidesBefore(g: Grid, s: Chip8Sprite, x: nat, y: nat, k: nat)
    requires IsGrid(g)
  {
    exists i, j :: 0 <= i < |s.pixels| && 0 <= j < SPRITE_WIDTH && i * SPRITE_WIDTH + j < k
      && s.pixels[i][j] == White && y + i < HEIGHT && x + j < WIDTH && g[y + i][x + j] == White
  }

  /** The display after `draw_sprite_on_display(x, y, s)`. */
  function Drawn(g: Grid, s: Chip8Sprite, x: nat, y: nat): (g': Grid)
    requires IsGrid(g)
    ensures IsGrid(g')
  {
    DrawnBefore(g, s, x, y, |s.pixels| * SPRITE_WIDTH)
  }

  /** The result of `draw_sprite_on_display(x, y, s)` on display g. */
  predicate Collides(g: Grid, s: Chip8Sprite, x: nat, y: nat)
    requires IsGrid(g)
  {
    CollidesBefore(g, s, x, y, |s.pixels| * SPRITE_WIDTH)
  }

  /** Loop step i * 8 + j names exactly sprite pixel (i, j). */
  lemma StepIndexUnique(a: nat, b: nat, i: nat, j: nat)
    requires b < SPRITE_WIDTH && j < SPRITE_WIDTH
    ensures a * SPRITE_WIDTH + b == i * SPRITE_WIDTH + j <==> a == i && b == j
  {
    if a < i {
      assert a * SPRITE_WIDTH + SPRITE_WIDTH <= i * SPRITE_WIDTH;
    } else if i < a {
      assert i * SPRITE_WIDTH + SPRITE_WIDTH <= a * SPRITE_WIDTH;
    }
  }

  /** One step of the draw loop, at sprite pixel (i, j): the display it changes. */
  lemma DrawStep(g: Grid, s: Chip8Sprite, x: nat, y: nat, i: nat, j: nat)
    requires IsGrid(g) && Fits(s, x, y) && i < |s.pixels| && j < SPRITE_WIDTH
    ensures s.pixels[i][j] == White ==>
      && x + j < WIDTH && y + i < HEIGHT
      && DrawnBefore(g, s, x, y, i * SPRITE_WIDTH + j)[y + i][x + j] == g[y + i][x + j]
      && Toggled(DrawnBefore(g, s, x, y, i * SPRITE_WIDTH + j), x + j, y + i)
         == DrawnBefore(g, s, x, y, i * SPRITE_WIDTH + j + 1)
    ensures s.pixels[i][j] != White ==>
      DrawnBefore(g, s, x, y, i * SPRITE_WIDTH + j + 1) == DrawnBefore(g, s, x, y, i * SPRITE_WIDTH + j)
  {
    var k := i * SPRITE_WIDTH + j;
    var before, after := DrawnBefore(g, s, x, y, k), DrawnBefore(g, s, x, y, k + 1);
    // only the cell of sprite pixel (i, j) can differ between the two
    forall r, c | 0 <= r < HEIGHT && 0 <= c < WIDTH && (r != y + i || c != x + j)
      ensures after[r][c] == before[r][c]
    {
      if y <= r < y + |s.pixels| && x <= c < x + SPRITE_WIDTH {
        StepIndexUnique(r - y, c - x, i, j);
      }
      assert CoveredBefore(s, x, y, r, c, k + 1) == CoveredBefore(s, x, y, r, c, k);
    }
    if s.pixels[i][j] == White {
      assert !CoveredBefore(s, x, y, y + i, x + j, k);
      assert CoveredBefore(s, x, y, y + i, x + j, k + 1);
      var t := Toggled(before, x + j, y + i);
      forall r | 0 <= r < HEIGHT ensures t[r] == after[r] { }
    } else {
      forall r | 0 <= r < HEIGHT ensures after[r] == before[r] { }
    }
  }

  /** One step of the draw loop, at sprite pixel (i, j): the collision flag it adds. */
  lemma CollideStep(g: Grid, s: Chip8Sprite, x: nat, y: nat, i: nat, j: nat)
    requires IsGrid(g) && i < |s.pixels| && j < SPRITE_WIDTH
    ensures CollidesBefore(g, s, x, y, i * SPRITE_WIDTH + j + 1)
        <==> CollidesBefore(g, s, x, y, i * SPRITE_WIDTH + j)
             || (s.pixels[i][j] == White && x + j < WIDTH && y + i < HEIGHT && g[y + i][x + j] == White)
  {
    var k := i * SPRITE_WIDTH + j;
    forall a, b | 0 <= a < |s.pixels| && 0 <= b < SPRITE_WIDTH
      ensures (a * SPRITE_WIDTH + b < k + 1 && s.pixels[a][b] == White)
          <==> (a * SPRITE_WIDTH + b < k || (a == i && b == j)) && s.pixels[a][b] == White
    {
      StepIndexUnique(a, b, i, j);
    }
  }

  /** The draw toggles exactly the cells a White sprite pixel covers. */
  lemma DrawnChangesCovered(g: Grid, s: Chip8Sprite, x: nat, y: nat)
    requires IsGrid(g)
    ensures forall r, c :: 0 <= r < HEIGHT && 0 <= c < WIDTH ==>
      (Drawn(g, s, x, y)[r][c] != g[r][c] <==> Covered(s, x, y, r, c))
  {
  }

  /** Drawing the same sprite twice at the same place restores the display. */
  lemma DrawTwice(g: Grid, s: Chip8Sprite, x: nat, y: nat)
    requires IsGrid(g)
    ensures Drawn(Drawn(g, s, x, y), s, x, y) == g
  {
    var g' := Drawn(Drawn(g, s, x, y), s, x, y);
    forall r | 0 <= r < HEIGHT ensures g'[r] == g[r] { }
  }

  /**
   * The second of two identical draws reports a collision exactly when some
   * White sprite pixel lands on a cell that was Black before the first.
   */
  lemma SecondDrawCollides(g: Grid, s: Chip8Sprite, x: nat, y: nat)
    requires IsGrid(g) && Fits(s, x, y)
    ensures Collides(Drawn(g, s, x, y), s, x, y)
        <==> exists i, j :: 0 <= i < |s.pixels| && 0 <= j < SPRITE_WIDTH
               && s.pixels[i][j] == White && g[y + i][x + j] == Black
  {
    var g1 := Drawn(g, s, x, y);
    forall i, j | 0 <= i < |s.pixels| && 0 <= j < SPRITE_WIDTH && s.pixels[i][j] == White
      ensures g1[y + i][x + j] == Flip(g[y + i][x + j])
    {
      assert Covered(s, x, y, y + i, x + j);
    }
  }

  /**
   * On a blank display the first draw never collides, and the second draw of
   * the same sprite collides exactly when the sprite has a White pixel.
   */
  lemma DrawTwiceOnBlank(s: Chip8Sprite, x: nat, y: nat)
    requires Fits(s, x, y)
    ensures !Collides(Blank(), s, x, y)
    ensures Collides(Drawn(Blank(), s, x, y), s, x, y)
        <==> exists i, j :: 0 <= i < |s.pixels| && 0 <= j < SPRITE_WIDTH && s.pixels[i][j] == White
  {
    SecondDrawCollides(Blank(), s, x, y);
  }

  // ---------------------------------------------------------------------------
  // The display object
  // ---------------------------------------------------------------------------

  class Chip8Output {
    const display: array2<Chip8Pixel>

    ghost predicate Valid() {
      display.Length0 == HEIGHT && display.Length1 == WIDTH
    }

    /** The display as a value. */
    ghost function Screen(): (g: Grid)
      reads display
      requires Valid()
      ensures IsGrid(g)
      ensures forall r, c :: 0 <= r < HEIGHT && 0 <= c < WIDTH ==> g[r][c] == display[r, c]
    {
      seq(HEIGHT, r requires 0 <= r < HEIGHT reads display =>
        seq(WIDTH, c requires 0 <= c < WIDTH reads display => display[r, c]))
    }

    /** `new`: a 32x64 display, all Black. */
    constructor ()
      ensures Valid() && fresh(display)
      ensures Screen() == Blank()
    {
      display := new Chip8Pixel[HEIGHT, WIDTH]((_, _) => Black);
      new;
      forall r | 0 <= r < HEIGHT ensures Screen()[r] == Blank()[r] { }
    }

    /**
     * `clear_display`: every pixel Black. The result does not depend on the
     * display before, so clearing twice is clearing once.
     */
    method ClearDisplay()
      requires Valid()
      modifies display
      ensures Screen() == Blank()
    {
      var r := 0;
      while r < HEIGHT
        invariant 0 <= r <= HEIGHT
        invariant forall a, b :: 0 <= a < r && 0 <= b < WIDTH ==> display[a, b] == Black
      {
        var c := 0;
        while c < WIDTH
          invariant 0 <= c <= WIDTH
          invariant forall a, b :: 0 <= a < r && 0 <= b < WIDTH ==> display[a, b] == Black
          invariant forall b :: 0 <= b < c ==> display[r, b] == Black
        {
          display[r, c] := Black;
          c := c + 1;
        }
        r := r + 1;
      }
      forall a | 0 <= a < HEIGHT ensures Screen()[a] == Blank()[a] { }
    }

    /**
     * `toggle_pixel`: the asserts demand an on-screen pixel; it flips that
     * pixel only, and reports whether it was White before.
     */
    method TogglePixel(x: nat, y: nat) returns (wasWhite: bool)
      requires Valid() && x < WIDTH && y < HEIGHT
      modifies display
      ensures Screen() == Toggled(old(Screen()), x, y)
      ensures wasWhite <==> old(Screen())[y][x] == White
    {
      ghost var g := Screen();
      var origPixel := display[y, x];
      display[y, x] := if origPixel == White then Black else White;
      wasWhite := origPixel == White;
      var t := Toggled(g, x, y);
      forall r | 0 <= r < HEIGHT ensures Screen()[r] == t[r] { }
    }

    /**
     * `draw_sprite_on_display`: XORs the sprite onto the display at (x, y)
     * and reports whether any White pixel was turned Black.
     */
    method DrawSpriteOnDisplay(x: nat, y: nat, sprite: Chip8Sprite) returns (flippedFromWhite: bool)
      requires Valid() && Fits(sprite, x, y)
      modifies display
      ensures Screen() == Drawn(old(Screen()), sprite, x, y)
      ensures flippedFromWhite == Collides(old(Screen()), sprite, x, y)
    {
      ghost var g := Screen();
      flippedFromWhite := false;
      assert Screen() == DrawnBefore(g, sprite, x, y, 0) by {
        forall r | 0 <= r < HEIGHT ensures Screen()[r] == DrawnBefore(g, sprite, x, y, 0)[r] { }
      }
      var i := 0;
      while i < |sprite.pixels|
        invariant 0 <= i <= |sprite.pixels|
        invariant Screen() == DrawnBefore(g, sprite, x, y, i * SPRITE_WIDTH)
        invariant flippedFromWhite == CollidesBefore(g, sprite, x, y, i * SPRITE_WIDTH)
      {
        flippedFromWhite := DrawSpriteRow(g, x, y, sprite, i, flippedFromWhite);
        assert i * SPRITE_WIDTH + SPRITE_WIDTH == (i + 1) * SPRITE_WIDTH;
        i := i + 1;
      }
    }

    /** The inner loop of `draw_sprite_on_display`: row i of the sprite. */
    method DrawSpriteRow(ghost g: Grid, x: nat, y: nat, sprite: Chip8Sprite, i: nat, flippedBefore: bool)
      returns (flippedFromWhite: bool)
      requires Valid() && IsGrid(g) && Fits(sprite, x, y) && i < |sprite.pixels|
      requires Screen() == DrawnBefore(g, sprite, x, y, i * SPRITE_WIDTH)
      requires flippedBefore == CollidesBefore(g, sprite, x, y, i * SPRITE_WIDTH)
      modifies display
      ensures Screen() == DrawnBefore(g, sprite, x, y, i * SPRITE_WIDTH + SPRITE_WIDTH)
      ensures flippedFromWhite == CollidesBefore(g, sprite, x, y, i * SPRITE_WIDTH + SPRITE_WIDTH)
    {
      flippedFromWhite := flippedBefore;
      var pixelRow := sprite.pixels[i];
      var j := 0;
      while j < SPRITE_WIDTH
        invariant 0 <= j <= SPRITE_WIDTH
        invariant Screen() == DrawnBefore(g, sprite, x, y, i * SPRITE_WIDTH + j)
        invariant flippedFromWhite == CollidesBefore(g, sprite, x, y, i * SPRITE_WIDTH + j)
      {
        DrawStep(g, sprite, x, y, i, j);
        CollideStep(g, sprite, x, y, i, j);
        if pixelRow[j] == White {
          var w := TogglePixel(x + j, y + i);
          flippedFromWhite := flippedFromWhite || w;
        }
        j := j + 1;
      }
    }
  }
}
