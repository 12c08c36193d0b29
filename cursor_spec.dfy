/**
 * The terminal-style cursor as a value: the grid it writes, its row and
 * column, and its current colours. Every operation returns `None` exactly when
 * the source panics (a failed `assert!`, an index or a slice out of range).
 */
module CursorSpec {
  import opened Wrappers
  import opened Grid

  datatype Term = Term(cells: seq<AChar>, row: nat, col: nat, fg: Color, bg: Color)

  /** The cursor invariant: the grid has its fixed size and the column is in
      range. The row may reach `ROWS` (after `clear`, or after a wrap or a line
      break on the last row) and even `ROWS + 1` (after a line break there). */
  predicate Valid(t: Term) {
    |t.cells| == CELLS && t.col < COLS
  }

  /** The linear index `row * COLS + col` of the write head. */
  function Pos(t: Term): nat {
    t.row * COLS + t.col
  }

  /** `Cursor::new`: position (0, 0), foreground 0xFF, background 0b100000.
      These colours never reach the grid: every screen and the overlay set
      both colours before writing anything. */
  function New(cells: seq<AChar>): (t: Term)
    requires |cells| == CELLS
    ensures Valid(t) && Pos(t) == 0 && t.cells == cells
    ensures t.fg == 0xFF && t.bg == 0x20
  {
    Term(cells, 0, 0, 0xFF, 0x20)
  }

  /** The end of the padding written by a line break, as the source rounds it. */
  function EndOfLine(pos: nat): nat {
    (pos + (COLS - 1)) / COLS * COLS
  }

  lemma EndOfLineIsRowEnd(t: Term)
    requires Valid(t)
    ensures EndOfLine(Pos(t)) == if t.col == 0 then Pos(t) else (t.row + 1) * COLS
  {
    var q := t.row + (if t.col == 0 then 0 else 1);
    assert q * COLS <= Pos(t) + (COLS - 1) < q * COLS + COLS;
  }

  /** `putc`. A line break pads the rest of the row with blanks in the current
      colours (nothing at column 0) and moves to column 0 of the next row; any
      other byte is written at the write head, which then advances by one,
      wrapping to the next row after the last column. */
  function PutC(t: Term, c: Byte): (r: Option<Term>)
    requires Valid(t)
    ensures r.Some? <==> if c == NEWLINE then Pos(t) <= CELLS else Pos(t) < CELLS
    ensures r.Some? ==> Valid(r.value) && r.value.fg == t.fg && r.value.bg == t.bg
    ensures r.Some? && c != NEWLINE ==>
      Pos(r.value) == Pos(t) + 1 && r.value.cells == t.cells[Pos(t) := AChar(c, t.fg, t.bg)]
    ensures r.Some? && c == NEWLINE ==>
      r.value.row == t.row + 1 && r.value.col == 0 &&
      var rowEnd := if t.col == 0 then Pos(t) else (t.row + 1) * COLS;
      rowEnd - Pos(t) < COLS &&
      r.value.cells == Fill(t.cells, Pos(t), rowEnd, Blank(t.fg, t.bg))
  {
    var pos := Pos(t);
    if c == NEWLINE then
      var eol := EndOfLine(pos);
      EndOfLineIsRowEnd(t);
      if eol <= |t.cells| then
        Some(Term(Fill(t.cells, pos, eol, Blank(t.fg, t.bg)), t.row + 1, 0, t.fg, t.bg))
      else
        None
    else if pos < |t.cells| then
      var col := t.col + 1;
      Some(Term(t.cells[pos := AChar(c, t.fg, t.bg)],
                if col == COLS then t.row + 1 else t.row,
                if col == COLS then 0 else col,
                t.fg, t.bg))
    else
      None
  }

  /** `puts`: `putc` on each byte, left to right; panics if any step does. */
  function PutS(t: Term, s: seq<Byte>): (r: Option<Term>)
    requires Valid(t)
    ensures r.Some? ==> Valid(r.value) && r.value.fg == t.fg && r.value.bg == t.bg
    decreases |s|
  {
    if s == [] then Some(t)
    else
      var u :- PutC(t, s[0]);
      PutS(u, s[1..])
  }

  /** `goto`: asserts that the target is on the grid, then moves there. */
  function Goto(t: Term, row: nat, col: nat): (r: Option<Term>)
    requires Valid(t)
    ensures r.Some? <==> row < ROWS && col < COLS
    ensures r.Some? ==> Valid(r.value) && r.value.row == row && r.value.col == col
    ensures r.Some? ==> r.value.cells == t.cells && r.value.fg == t.fg && r.value.bg == t.bg
  {
    if row < ROWS && col < COLS then Some(t.(row := row, col := col)) else None
  }

  /** `COLS * ROWS` spaces, the bytes `clear` types. */
  function Spaces(n: nat): (s: seq<Byte>)
    ensures |s| == n && NEWLINE !in s
  {
    seq(n, _ => SPACE)
  }

  /** `clear`: `goto(0, 0)`, then a space typed into every cell. */
  function Clear(t: Term): (r: Option<Term>)
    requires Valid(t)
    ensures r.Some? ==> Valid(r.value) && r.value.fg == t.fg && r.value.bg == t.bg
  {
    var u := Goto(t, 0, 0).value;
    PutS(u, Spaces(CELLS))
  }

  /** A blank grid in the given colours with the cursor left one row past the
      grid, where `clear` leaves it. */
  function Cleared(fg: Color, bg: Color): (t: Term)
    ensures Valid(t) && Pos(t) == CELLS
  {
    Term(Blanks(fg, bg), ROWS, 0, fg, bg)
  }

  /** `write_str`'s conversion: each `char` truncated to its low 8 bits. */
  function LowBytes(s: string): (b: seq<Byte>)
    ensures |b| == |s|
    ensures forall j :: 0 <= j < |s| ==> b[j] as int == s[j] as int % 256
  {
    seq(|s|, j requires 0 <= j < |s| => (s[j] as int % 256) as char)
  }

  // ---------------------------------------------------------------------
  // Properties

  /** Two positions on the grid are the same exactly when their linear
      indices are. */
  lemma PosDetermines(t: Term, u: Term)
    requires t.col < COLS && u.col < COLS && Pos(t) == Pos(u)
    ensures t.row == u.row && t.col == u.col
  {
  }

  /** Writing `k` bytes with no line break from linear position `p`, with
      `p + k <= COLS * ROWS`, puts them at indices `p .. p + k - 1` in order, in
      the current colours, changes no other cell and leaves the write head at
      `p + k`. */
  lemma {:induction false} PutSPlain(t: Term, s: seq<Byte>)
    requires Valid(t) && NEWLINE !in s && Pos(t) + |s| <= CELLS
    ensures PutS(t, s).Some?
    ensures PutS(t, s).value.cells == Overwrite(t.cells, Pos(t), Attrs(s, t.fg, t.bg))
    ensures Pos(PutS(t, s).value) == Pos(t) + |s|
    decreases |s|
  {
    if s != [] {
      var u := PutC(t, s[0]).value;
      assert NEWLINE !in s[1..] by {
        assert forall j :: 0 <= j < |s[1..]| ==> s[1..][j] == s[j + 1];
      }
      PutSPlain(u, s[1..]);
      assert PutS(t, s) == PutS(u, s[1..]);
      var want := Overwrite(t.cells, Pos(t), Attrs(s, t.fg, t.bg));
      var got := PutS(t, s).value.cells;
      forall i | 0 <= i < CELLS
        ensures got[i] == want[i]
      {
      }
      assert got == want;
    }
  }

  /** `puts` of a byte sequence is `puts` of its two halves in turn. */
  lemma {:induction false} PutSAppend(t: Term, a: seq<Byte>, b: seq<Byte>)
    requires Valid(t)
    ensures PutS(t, a + b) == (var u :- PutS(t, a); PutS(u, b))
    decreases |a|
  {
    if a == [] {
      assert a + b == b;
    } else {
      assert (a + b)[0] == a[0] && (a + b)[1..] == a[1..] + b;
      var u := PutC(t, a[0]);
      if u.Some? {
        PutSAppend(u.value, a[1..], b);
      }
    }
  }

  /** `clear` never panics; it leaves every cell a space in the current
      colours, the colours themselves unchanged, and the cursor at row `ROWS`,
      column 0. */
  lemma ClearBlanks(t: Term)
    requires Valid(t)
    ensures Clear(t) == Some(Cleared(t.fg, t.bg))
  {
    var u := Goto(t, 0, 0).value;
    PutSPlain(u, Spaces(CELLS));
    var r := PutS(u, Spaces(CELLS)).value;
    assert r.cells == Blanks(t.fg, t.bg);
    PosDetermines(r, Cleared(t.fg, t.bg));
  }

  /** A space and a line break typed at column 0 of a row on the grid paint
      that whole row blank in the current colours and move to the next row. */
  lemma SpaceNewline(t: Term)
    requires Valid(t) && t.col == 0 && t.row < ROWS
    ensures PutS(t, " \n").Some?
    ensures var r := PutS(t, " \n").value;
      r.cells == Overwrite(t.cells, Pos(t), Attrs(Spaces(COLS), t.fg, t.bg)) &&
      r.row == t.row + 1 && r.col == 0 && r.fg == t.fg && r.bg == t.bg
  {
    var u := PutC(t, SPACE).value;
    var v := PutC(u, NEWLINE).value;
    assert PutS(t, " \n") == PutS(u, "\n") == PutS(v, []);
    var want := Overwrite(t.cells, Pos(t), Attrs(Spaces(COLS), t.fg, t.bg));
    forall i | 0 <= i < CELLS
      ensures v.cells[i] == want[i]
    {
    }
  }
}
