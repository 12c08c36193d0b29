/**
 * The attributed-character grid that backs the kiosk display: 80 columns by
 * 37 rows of cells, each a character code with a foreground and a background
 * colour, stored row-major in one fixed-size array.
 */
module Grid {

  /** An 8-bit character code (Rust `u8`), written as a `char` below 256 so that
      the byte-string literals of the screens can be written directly. */
  type Byte = c: char | c as int < 256

  /** A colour byte (`m4vga::Pixel`, a `u8`): two bits each of blue, green, red. */
  type Color = x: int | 0 <= x < 256

  const COLS: nat := 80
  const ROWS: nat := 37
  /** Number of cells in the grid, `COLS * ROWS`. */
  const CELLS: nat := 2960

  const WHITE: Color := 0x3F    // 0b11_11_11
  const BLACK: Color := 0x00    // 0b00_00_00
  const DK_GRAY: Color := 0x15  // 0b01_01_01
  const RED: Color := 0x03      // 0b00_00_11
  const BLUE: Color := 0x30     // 0b11_00_00

  const NEWLINE: Byte := '\n'
  const SPACE: Byte := ' '

  /** An attributed character. The packed hardware layout is not modelled. */
  datatype AChar = AChar(ch: Byte, fg: Color, bg: Color)

  /** The cell `AChar::from_ascii_char(0)` that fills the grid at start-up. */
  const ZERO: AChar := AChar('\0', 0, 0)

  /** A space in the given colours, as written by padding and clearing. */
  function Blank(fg: Color, bg: Color): AChar {
    AChar(SPACE, fg, bg)
  }

  /** A whole grid of blanks in the given colours. */
  function Blanks(fg: Color, bg: Color): (g: seq<AChar>)
    ensures |g| == CELLS
    ensures forall i :: 0 <= i < CELLS ==> g[i] == Blank(fg, bg)
  {
    seq(CELLS, _ => Blank(fg, bg))
  }

  /** The cells for the bytes `s` drawn in colours `fg` on `bg`. */
  function Attrs(s: seq<Byte>, fg: Color, bg: Color): (a: seq<AChar>)
    ensures |a| == |s|
    ensures forall j :: 0 <= j < |s| ==> a[j] == AChar(s[j], fg, bg)
  {
    seq(|s|, j requires 0 <= j < |s| => AChar(s[j], fg, bg))
  }

  /** `cells` with the run `a` written from index `p` on, everything else kept. */
  function Overwrite(cells: seq<AChar>, p: nat, a: seq<AChar>): (r: seq<AChar>)
    requires p + |a| <= |cells|
    ensures |r| == |cells|
    ensures forall i :: 0 <= i < |cells| ==> r[i] == if p <= i < p + |a| then a[i - p] else cells[i]
  {
    seq(|cells|, i requires 0 <= i < |cells| => if p <= i < p + |a| then a[i - p] else cells[i])
  }

  /** `cells` with every index in `[lo, hi)` set to `x`. */
  function Fill(cells: seq<AChar>, lo: nat, hi: nat, x: AChar): (r: seq<AChar>)
    requires lo <= hi <= |cells|
    ensures |r| == |cells|
    ensures forall i :: 0 <= i < |cells| ==> r[i] == if lo <= i < hi then x else cells[i]
  {
    Overwrite(cells, lo, seq(hi - lo, _ => x))
  }

  /** Writing the same cells twice is writing them once. */
  lemma OverwriteTwice(cells: seq<AChar>, p: nat, a: seq<AChar>)
    requires p + |a| <= |cells|
    ensures Overwrite(Overwrite(cells, p, a), p, a) == Overwrite(cells, p, a)
  {
  }
}
