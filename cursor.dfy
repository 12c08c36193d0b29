/**
 * The `Cursor` object: a write head over a borrowed grid array. Each method
 * updates the array and the fields in place and is proved to do exactly what
 * the matching operation of `CursorSpec` does to the cursor's abstract state.
 */
module CursorImpl {
  import opened Wrappers
  import opened Grid
  import M = CursorSpec

  /** What `write_str` returns (`core::fmt::Result`). */
  datatype FmtResult = Ok | Error

  class Cursor {
    const buf: array<AChar>
    var row: nat
    var col: nat
    var fg: Color
    var bg: Color

    /** The abstract state of the cursor. */
    ghost function State(): M.Term
      reads this, buf
    {
      M.Term(buf[..], row, col, fg, bg)
    }

    ghost predicate Valid()
      reads this, buf
    {
      M.Valid(State())
    }

    function Pos(): nat
      reads this
    {
      row * COLS + col
    }

    /** `Cursor::new` */
    constructor (buf: array<AChar>)
      requires buf.Length == CELLS
      ensures this.buf == buf
      ensures Valid() && State() == M.New(buf[..])
    {
      this.buf := buf;
      row, col := 0, 0;
      fg, bg := 0xFF, 0x20;
    }

    /** `putc`. The source indexes the array with `row * COLS + col` (a
        non-newline byte) and slices it from there (a line break); both
        panic out of range, hence the precondition. */
    method PutC(c: Byte)
      requires Valid()
      requires if c == NEWLINE then Pos() <= CELLS else Pos() < CELLS
      modifies this, buf
      ensures Valid() && M.PutC(old(State()), c) == Some(State())
    {
      if c == NEWLINE {
        var pos := row * COLS + col;
        var eol := (pos + (COLS - 1)) / COLS * COLS;
        M.EndOfLineIsRowEnd(State());
        for p := pos to eol
          invariant row == old(row) && col == old(col) && fg == old(fg) && bg == old(bg)
          invariant forall i :: 0 <= i < CELLS ==>
            buf[i] == if pos <= i < p then Blank(fg, bg) else old(buf[i])
        {
          buf[p] := Blank(fg, bg);
        }
        assert buf[..] == Fill(old(buf[..]), pos, eol, Blank(fg, bg));
        col := 0;
        row := row + 1;
      } else {
        buf[row * COLS + col] := AChar(c, fg, bg);
        col := col + 1;
        if col == COLS {
          col := 0;
          row := row + 1;
        }
      }
    }

    /** `puts`: `putc` on each byte of `s`, left to right. */
    method PutS(s: seq<Byte>)
      requires Valid() && M.PutS(State(), s).Some?
      modifies this, buf
      ensures Valid() && M.PutS(old(State()), s) == Some(State())
    {
      for i := 0 to |s|
        invariant Valid()
        invariant M.PutS(State(), s[i..]) == M.PutS(old(State()), s)
      {
        assert s[i..][0] == s[i] && s[i..][1..] == s[i + 1..];
        PutC(s[i]);
      }
    }

    /** `goto`: asserts the target is on the grid, then moves there; the
        grid and the colours are untouched. */
    method Goto(row: nat, col: nat)
      requires Valid()
      requires row < ROWS && col < COLS
      modifies this
      ensures Valid() && M.Goto(old(State()), row, col) == Some(State())
      ensures this.row == row && this.col == col
      ensures buf[..] == old(buf[..]) && fg == old(fg) && bg == old(bg)
    {
      this.row := row;
      this.col := col;
    }

    /** `clear`: `goto(0, 0)`, then `putc(b' ')` `COLS * ROWS` times. Every
        cell ends up a space in the current colours, the colours are
        unchanged and the cursor is left at row `ROWS`, column 0. */
    method Clear()
      requires Valid()
      modifies this, buf
      ensures Valid() && M.Clear(old(State())) == Some(State())
      ensures buf[..] == Blanks(fg, bg) && row == ROWS && col == 0
      ensures fg == old(fg) && bg == old(bg)
    {
      M.ClearBlanks(State());
      Goto(0, 0);
      for i := 0 to CELLS
        invariant Valid()
        invariant M.PutS(State(), M.Spaces(CELLS - i)) == M.Clear(old(State()))
      {
        assert M.Spaces(CELLS - i)[0] == SPACE && M.Spaces(CELLS - i)[1..] == M.Spaces(CELLS - i - 1);
        PutC(SPACE);
      }
      assert M.Spaces(0) == [];
    }

    /** `write_str` (the `core::fmt::Write` implementation): `putc` on the low
        8 bits of each `char`; always returns `Ok`. */
    method WriteStr(s: string) returns (r: FmtResult)
      requires Valid() && M.PutS(State(), M.LowBytes(s)).Some?
      modifies this, buf
      ensures Valid() && M.PutS(old(State()), M.LowBytes(s)) == Some(State())
      ensures r == Ok
    {
      ghost var b := M.LowBytes(s);
      for i := 0 to |s|
        invariant Valid()
        invariant M.PutS(State(), b[i..]) == M.PutS(old(State()), b)
      {
        var c := s[i] as int % 256;
        assert b[i..][0] == c as char && b[i..][1..] == b[i + 1..];
        PutC(c as char);
      }
      return Ok;
    }
  }
}
