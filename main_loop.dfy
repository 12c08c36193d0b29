/**
 * The kiosk's main loop. Once per frame it builds a fresh cursor over the
 * grid, packs the three input pins into a code, repaints the screen the code
 * selects when the code differs from the previous frame's, and always shows
 * the code in three binary digits in white on red at row 35, column 77.
 */
module Kiosk {
  import opened Wrappers
  import opened Grid
  import opened CursorSpec
  import opened Screens
  import C = CursorImpl
  import P = ScreenProcs

  // ---------------------------------------------------------------------
  // The input code

  /** One reading of input pins 7, 8 and 9 of port C. */
  datatype Pins = Pins(pin7: bool, pin8: bool, pin9: bool)

  /** The pins packed into bits 0, 1 and 2 of the code. */
  function Code(p: Pins): (s: nat)
    ensures s < 8
  {
    (if p.pin7 then 1 else 0) + (if p.pin8 then 2 else 0) + (if p.pin9 then 4 else 0)
  }

  /** The pins read back from the bits of the code. */
  function Bits(s: nat): Pins {
    Pins(s % 2 == 1, s / 2 % 2 == 1, s / 4 % 2 == 1)
  }

  /** Packing loses nothing: the bits of the code are the pins. */
  lemma CodeBits(p: Pins)
    ensures Bits(Code(p)) == p
  {
  }

  /** Every code from 0 to 7 is the packing of its own bits. */
  lemma CodeOnto(s: nat)
    requires s < 8
    ensures Code(Bits(s)) == s
  {
  }

  // ---------------------------------------------------------------------
  // The dispatch table

  /** The screen the loop draws for code `s`: every code the table does not
      list falls back to the error screen. */
  function Dispatch(s: nat): (sc: Screen)
    ensures sc != Line3
    ensures sc == Error <==> s == 0 || s > 6
  {
    match s
    case 0 => Error
    case 1 => Start
    case 2 => Paying
    case 3 => Confirm
    case 4 => Line1
    case 5 => Line2
    case 6 => Thanks
    case _ => Error
  }

  /** The code the table lists for screen `sc`, if any. */
  function Entry(sc: Screen): Option<nat> {
    match sc
    case Error => Some(0)
    case Start => Some(1)
    case Paying => Some(2)
    case Confirm => Some(3)
    case Line1 => Some(4)
    case Line2 => Some(5)
    case Line3 => None
    case Thanks => Some(6)
  }

  /** The table is one to one on codes 0 to 6, and every screen but
      `screen_line3` is reachable through it. */
  lemma DispatchEntry(s: nat, sc: Screen)
    ensures s <= 6 ==> Entry(Dispatch(s)) == Some(s)
    ensures sc != Line3 <==> Entry(sc).Some?
    ensures Entry(sc).Some? ==> Dispatch(Entry(sc).value) == sc
  {
  }

  // ---------------------------------------------------------------------
  // The code in binary

  function Digit(bit: bool): char {
    if bit then '1' else '0'
  }

  function Bit(c: char): nat {
    if c == '1' then 1 else 0
  }

  /** The number three binary digits spell, most significant first. */
  function ValueOf(r: string): nat
    requires |r| == 3
  {
    4 * Bit(r[0]) + 2 * Bit(r[1]) + Bit(r[2])
  }

  predicate IsBinary(r: string) {
    forall i :: 0 <= i < |r| ==> r[i] == '0' || r[i] == '1'
  }

  /** `format!("{:03b}", s)` for a code below 8: three binary digits. */
  function Binary3(s: nat): (r: string)
    requires s < 8
    ensures |r| == 3 && IsBinary(r) && ValueOf(r) == s
  {
    [Digit(s / 4 == 1), Digit(s / 2 % 2 == 1), Digit(s % 2 == 1)]
  }

  /** The overlay's digits are plain ASCII, so `write_str` passes them through
      unchanged and they hold no line break. */
  lemma OverlayBytes(s: nat)
    requires s < 8
    ensures LowBytes(Binary3(s)) == Binary3(s)
    ensures NEWLINE !in Binary3(s)
  {
    var r := Binary3(s);
    assert forall j :: 0 <= j < 3 ==> LowBytes(r)[j] == r[j] by {
      forall j | 0 <= j < 3
        ensures LowBytes(r)[j] == r[j]
      {
        assert r[j] == '0' || r[j] == '1';
      }
    }
    assert forall j :: 0 <= j < 3 ==> r[j] != NEWLINE;
  }

  /** Three binary digits are the digits of the code they spell. */
  lemma BinaryValue(r: string)
    requires |r| == 3 && IsBinary(r)
    ensures ValueOf(r) < 8 && Binary3(ValueOf(r)) == r
  {
  }

  // ---------------------------------------------------------------------
  // One frame

  const OVERLAY_ROW: nat := 35
  const OVERLAY_COL: nat := 77
  /** Index of the overlay's first cell in the grid. */
  const OVERLAY: nat := OVERLAY_ROW * COLS + OVERLAY_COL

  /** The three overlay cells: the code's digits in white on red. */
  function Overlay(s: nat): seq<AChar>
    requires s < 8
  {
    Attrs(Binary3(s), WHITE, RED)
  }

  /** The grid after one pass of the loop body, given the grid before it,
      the previous frame's code `s0` and this frame's code `s`; `None` when
      the body would panic. */
  function Frame(cells: seq<AChar>, s0: nat, s: nat): (r: Option<seq<AChar>>)
    requires |cells| == CELLS && s < 8
    ensures r.Some? ==> |r.value| == CELLS
  {
    var t := New(cells);
    var t :- if s0 != s then Paint(Dispatch(s), t) else Some(t);
    var t := t.(bg := RED);
    var t := t.(fg := WHITE);
    var t := Goto(t, OVERLAY_ROW, OVERLAY_COL).value;
    var t :- PutS(t, LowBytes(Binary3(s)));
    Some(t.cells)
  }

  /** The overlay step on its own: it writes the three cells from OVERLAY. */
  lemma OverlayStep(t: Term, s: nat)
    requires Valid(t) && s < 8
    ensures var g := Goto(t.(bg := RED).(fg := WHITE), OVERLAY_ROW, OVERLAY_COL).value;
            PutS(g, LowBytes(Binary3(s))) ==
            Some(Term(Overwrite(t.cells, OVERLAY, Overlay(s)), OVERLAY_ROW + 1, 0, WHITE, RED))
  {
    var g := Goto(t.(bg := RED).(fg := WHITE), OVERLAY_ROW, OVERLAY_COL).value;
    OverlayBytes(s);
    PutSPlain(g, Binary3(s));
    var u := PutS(g, Binary3(s)).value;
    PosDetermines(u, Term(u.cells, OVERLAY_ROW + 1, 0, WHITE, RED));
  }

  /** A frame is the overlay written on whatever the screen step left. */
  lemma FrameOverlay(cells: seq<AChar>, s0: nat, s: nat)
    requires |cells| == CELLS && s < 8
    requires (if s0 != s then Paint(Dispatch(s), New(cells)) else Some(New(cells))).Some?
    ensures var drawn := (if s0 != s then Paint(Dispatch(s), New(cells)) else Some(New(cells))).value;
            Frame(cells, s0, s) == Some(Overwrite(drawn.cells, OVERLAY, Overlay(s)))
  {
    OverlayStep((if s0 != s then Paint(Dispatch(s), New(cells)) else Some(New(cells))).value, s);
  }

  /** An unchanged code leaves the grid as it was except for the overlay. */
  lemma FrameSame(cells: seq<AChar>, s: nat)
    requires |cells| == CELLS && s < 8
    ensures Frame(cells, s, s) == Some(Overwrite(cells, OVERLAY, Overlay(s)))
  {
    OverlayStep(New(cells), s);
  }

  /** The grid of screen `sc` drawn from a cleared grid. */
  function ScreenCells(sc: Screen): (g: seq<AChar>)
    ensures |g| == CELLS && BlankOutside(sc, g)
  {
    var t := Cleared(ClearFg(sc), ClearBg(sc));
    PaintLayout(sc, t);
    Paint(sc, t).value.cells
  }

  /** Whatever the grid and cursor it starts from, drawing `sc` yields the
      grid `ScreenCells(sc)`. */
  lemma DrawnCells(sc: Screen, t: Term)
    requires Valid(t)
    ensures Paint(sc, t).Some? && Paint(sc, t).value.cells == ScreenCells(sc)
  {
    PaintLayout(sc, t);
  }

  /** What the display should show while the code is `s`: the screen the
      table selects, with the code's digits at the overlay. */
  function Shown(s: nat): (g: seq<AChar>)
    requires s < 8
    ensures |g| == CELLS
    ensures forall j :: 0 <= j < 3 ==> g[OVERLAY + j] == AChar(Binary3(s)[j], WHITE, RED)
    ensures forall i :: 0 <= i < CELLS && !(OVERLAY <= i < OVERLAY + 3) && !Painted(Dispatch(s), i) ==>
              g[i] == Blank(ClearFg(Dispatch(s)), ClearBg(Dispatch(s)))
  {
    Overwrite(ScreenCells(Dispatch(s)), OVERLAY, Overlay(s))
  }

  /** A changed code repaints the screen the table selects: the result
      depends neither on the old grid nor on the old code. */
  lemma FrameChanged(cells: seq<AChar>, s0: nat, s: nat)
    requires |cells| == CELLS && s < 8 && s0 != s
    ensures Frame(cells, s0, s) == Some(Shown(s))
  {
    var sc := Dispatch(s);
    PaintLayout(sc, New(cells));
    OverlayStep(Paint(sc, New(cells)).value, s);
  }

  /** The loop body never panics. */
  lemma FrameTotal(cells: seq<AChar>, s0: nat, s: nat)
    requires |cells| == CELLS && s < 8
    ensures Frame(cells, s0, s).Some?
  {
    if s0 == s {
      FrameSame(cells, s);
    } else {
      FrameChanged(cells, s0, s);
    }
  }

  /** While the code stays the same the display stays the same. */
  lemma FrameSteady(cells: seq<AChar>, s0: nat, s: nat)
    requires |cells| == CELLS && s < 8
    ensures Frame(cells, s0, s).Some?
    ensures Frame(Frame(cells, s0, s).value, s, s) == Frame(cells, s0, s)
  {
    FrameTotal(cells, s0, s);
    var r := Frame(cells, s0, s).value;
    FrameSame(r, s);
    if s0 == s {
      FrameSame(cells, s);
      OverwriteTwice(cells, OVERLAY, Overlay(s));
    } else {
      FrameChanged(cells, s0, s);
      OverwriteTwice(ScreenCells(Dispatch(s)), OVERLAY, Overlay(s));
    }
  }

  /** The grid is in a state the loop can be in: freshly booted with code 0,
      or showing the screen of the previous code. */
  predicate Showing(cells: seq<AChar>, s0: nat) {
    (s0 == 0 && Boot() == Some(cells)) || (s0 < 8 && cells == Shown(s0))
  }

  /** Repainting only on change is invisible: from any state the loop can be
      in, one frame leaves the display showing exactly the current code's
      screen and digits, as if the screen were drawn on every frame. */
  lemma FrameShows(cells: seq<AChar>, s0: nat, s: nat)
    requires |cells| == CELLS && s < 8 && Showing(cells, s0)
    ensures Frame(cells, s0, s) == Some(Shown(s))
  {
    if s0 == s {
      FrameSame(cells, s);
      if s0 == 0 && Boot() == Some(cells) {
        BootScreen();
      }
      OverwriteTwice(ScreenCells(Dispatch(s)), OVERLAY, Overlay(s));
    } else {
      FrameChanged(cells, s0, s);
    }
  }

  // ---------------------------------------------------------------------
  // Start-up

  /** The grid at start-up: the all-zero buffer with the error screen drawn. */
  function Boot(): (r: Option<seq<AChar>>)
    ensures r.Some? ==> |r.value| == CELLS
  {
    var t :- ErrorScreen(New(seq(CELLS, _ => ZERO)));
    Some(t.cells)
  }

  /** Start-up draws the screen the table gives code 0. */
  lemma BootScreen()
    ensures Boot() == Some(ScreenCells(Dispatch(0)))
  {
    ErrorLayout(New(seq(CELLS, _ => ZERO)));
  }

  /** With all pins low the first frame shows exactly what switching to code
      0 shows from any other code and any grid. */
  lemma BootAgrees(cells: seq<AChar>, s0: nat)
    requires |cells| == CELLS && s0 != 0
    ensures Boot().Some? && Frame(Boot().value, 0, 0) == Frame(cells, s0, 0)
  {
    BootScreen();
    FrameShows(Boot().value, 0, 0);
    FrameChanged(cells, s0, 0);
  }

  // ---------------------------------------------------------------------
  // The imperative program

  /** `main` before the driver starts: the zeroed buffer, the error screen
      drawn into it, and the previous code 0. */
  method Startup() returns (buf: array<AChar>, s0: nat)
    ensures fresh(buf) && buf.Length == CELLS && Boot() == Some(buf[..]) && s0 == 0
  {
    buf := new AChar[CELLS](_ => ZERO);
    assert buf[..] == seq(CELLS, _ => ZERO);
    var c := new C.Cursor(buf);
    P.ScreenError(c);
    s0 := 0;
  }

  /** The `match` on the code inside the loop body. */
  method DrawScreen(c: C.Cursor, s: nat)
    requires c.Valid()
    modifies c, c.buf
    ensures c.Valid() && Paint(Dispatch(s), old(c.State())) == Some(c.State())
  {
    ghost var before := c.State();
    if s == 1 {
      assert Paint(Dispatch(s), before) == StartScreen(before);
      P.ScreenStart(c);
    } else if s == 2 {
      assert Paint(Dispatch(s), before) == PayingScreen(before);
      P.ScreenPaying(c);
    } else if s == 3 {
      assert Paint(Dispatch(s), before) == ConfirmScreen(before);
      P.ScreenConfirm(c);
    } else if s == 4 {
      assert Paint(Dispatch(s), before) == Line1Screen(before);
      P.ScreenLine1(c);
    } else if s == 5 {
      assert Paint(Dispatch(s), before) == Line2Screen(before);
      P.ScreenLine2(c);
    } else if s == 6 {
      assert Paint(Dispatch(s), before) == ThanksScreen(before);
      P.ScreenThanks(c);
    } else {
      // code 0 and every code the table does not list
      assert Paint(Dispatch(s), before) == ErrorScreen(before);
      P.ScreenError(c);
    }
  }

  /** One pass of the main loop's body; returns the code, which becomes the
      next pass's `s0`. */
  method LoopStep(buf: array<AChar>, s0: nat, input: Pins) returns (s: nat)
    requires buf.Length == CELLS
    modifies buf
    ensures s == Code(input)
    ensures Frame(old(buf[..]), s0, s) == Some(buf[..])
  {
    var c := new C.Cursor(buf);
    s := Code(input);
    ghost var start := c.State();
    if s0 != s {
      DrawScreen(c, s);
    }
    ghost var drawn := c.State();
    assert (if s0 != s then Paint(Dispatch(s), start) else Some(start)) == Some(drawn);
    // The two asserts restate the colour assignments on the abstract state;
    // they only keep the proof cheap.
    c.bg := RED;
    assert c.State() == drawn.(bg := RED);
    c.fg := WHITE;
    assert c.State() == drawn.(bg := RED).(fg := WHITE);
    c.Goto(OVERLAY_ROW, OVERLAY_COL);
    OverlayStep(drawn, s);
    OverlayBytes(s);
    var _ := c.WriteStr(Binary3(s));
    assert buf[..] == Overwrite(drawn.cells, OVERLAY, Overlay(s));
    FrameOverlay(start.cells, s0, s);
  }

  /** `LoopStep` from a state the loop can be in. */
  method ShowStep(buf: array<AChar>, s0: nat, input: Pins) returns (s: nat)
    requires buf.Length == CELLS && Showing(buf[..], s0)
    modifies buf
    ensures s == Code(input) && buf[..] == Shown(s)
  {
    ghost var before := buf[..];
    s := LoopStep(buf, s0, input);
    FrameShows(before, s0, s);
  }

  /** `main` followed by one pass of the endless loop per reading in
      `inputs`: afterwards the display shows the screen and digits of the
      last reading. */
  method RunFrames(inputs: seq<Pins>) returns (buf: array<AChar>, s0: nat)
    ensures fresh(buf) && buf.Length == CELLS && Showing(buf[..], s0)
    ensures |inputs| > 0 ==>
              s0 == Code(inputs[|inputs| - 1]) && buf[..] == Shown(s0)
  {
    buf, s0 := Startup();
    var k := 0;
    while k < |inputs|
      invariant 0 <= k <= |inputs|
      invariant fresh(buf) && buf.Length == CELLS && Showing(buf[..], s0)
      invariant k > 0 ==> s0 == Code(inputs[k - 1])
      invariant k > 0 ==> s0 < 8 && buf[..] == Shown(s0)
    {
      var s := ShowStep(buf, s0, inputs[k]);
      s0 := s;
      k := k + 1;
    }
  }
}
