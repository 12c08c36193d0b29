/**
 * The screen library: each `screen_*` procedure of the kiosk as a function of
 * the cursor state, with the facts every screen is proved to satisfy: it
 * never panics, what it draws does not depend on the grid or cursor it
 * starts from, and every cell outside the boxes it paints is left blank in
 * the colours it clears with.
 */
module Screens {
  import opened Wrappers
  import opened Grid
  import opened CursorSpec

  /** The application states, one per `screen_*` procedure. */
  datatype Screen = Error | Start | Paying | Confirm | Line1 | Line2 | Line3 | Thanks

  /** The colours a screen sets before it calls `clear`. */
  function ClearFg(sc: Screen): Color {
    WHITE
  }

  function ClearBg(sc: Screen): Color {
    if sc == Error then BLUE else DK_GRAY
  }

  /** A box of `height` rows and `width` columns whose top left corner is at
      (`top`, `left`). */
  datatype Box = Box(top: nat, left: nat, height: nat, width: nat) {
    /** Cell `i` of the grid, counted row by row, lies in the box. */
    predicate Contains(i: nat) {
      top <= i / COLS < top + height && left <= i % COLS < left + width
    }
  }

  /** The three-row title bar. */
  const TITLE := Box(0, 0, 3, COLS)

  /** The boxes that screen `sc` draws text into. */
  function Boxes(sc: Screen): (bs: seq<Box>)
    ensures forall b :: b in bs ==> b.top + b.height <= ROWS && b.left + b.width <= COLS
  {
    match sc
    case Error => [TITLE]
    case Start => [Box(16, 35, 5, 11)]
    case Paying => [TITLE, Box(17, 35, 4, 10)]
    case Confirm => [TITLE, Box(17, 35, 5, 11), Box(11, 0, 3, 5), Box(24, 0, 3, 5)]
    case Line1 | Line2 | Line3 =>
      [TITLE, Box(16, 35, 5, 11), Box(10, 0, 3, 6), Box(10, 74, 3, 6), Box(25, 0, 3, 6), Box(25, 74, 3, 6)]
    case Thanks => [TITLE, Box(17, 34, 5, 12)]
  }

  /** Cell `i` lies in one of the boxes of `sc`. */
  predicate Painted(sc: Screen, i: nat) {
    exists b :: b in Boxes(sc) && b.Contains(i)
  }

  /** Every cell outside the boxes of `sc` is a blank in its clearing colours. */
  predicate BlankOutside(sc: Screen, cells: seq<AChar>)
    requires |cells| == CELLS
  {
    forall i :: 0 <= i < CELLS && !Painted(sc, i) ==> cells[i] == Blank(ClearFg(sc), ClearBg(sc))
  }

  /** Text with no line break in it. */
  type Text = s: seq<Byte> | NEWLINE !in s

  // ---------------------------------------------------------------------
  // The texts the screens type (byte-string literals of the source; the
  // 80-byte titles are written as their runs of spaces around the word)

  const SPACE_NEWLINE: seq<Byte> := " \n"
  const ERROR_TITLE: Text := Spaces(37) + "ERROR" + Spaces(38)
  const BLANKS_11: Text := "           "
  const PRESS_ANY: Text := " Press any "
  const BUTTON: Text := "  button   "
  const TO_START: Text := " to start! "
  const PAYMENT_TITLE: Text := Spaces(36) + "Payment" + Spaces(37)
  const BLANKS_10: Text := "          "
  const PLEASE: Text := "  Please  "
  const PAY_NOW: Text := " pay now. "
  const CONFIRMATION_TITLE: Text := Spaces(34) + "Confirmation" + Spaces(34)
  const DO_YOU: Text := "  Do you   "
  const WANT_TO: Text := "  want to  "
  const CONTINUE: Text := " continue? "
  const BLANKS_5: Text := "     "
  const YES: Text := " YES "
  const NO: Text := " NO  "
  const LINE_1_TITLE: Text := Spaces(37) + "Line 1" + Spaces(37)
  const CHOOSE_A: Text := " Choose a  "
  const TICKET_TO: Text := " ticket to "
  const PURCHASE: Text := " purchase  "
  const BLANKS_6: Text := "      "
  const TICKET_A: Text := "   A  "
  const TICKET_B: Text := "  B   "
  const QUIT: Text := " QUIT "
  const NEXT: Text := " NEXT "
  const LINE_2_TITLE: Text := Spaces(37) + "Line 2" + Spaces(37)
  const TICKET_C: Text := "   C  "
  const TICKET_D: Text := "  D   "
  const PREV: Text := " PREV "
  const LINE_3_TITLE: Text := Spaces(37) + "Line 3" + Spaces(37)
  const TICKET_E: Text := "   E  "
  const TICKET_F: Text := "  F   "
  const THANK_YOU_TITLE: Text := Spaces(36) + "Thank You" + Spaces(35)
  const BLANKS_12: Text := "            "
  const THANKS_FOR: Text := " Thanks for "
  const TRAVELLING: Text := " travelling "
  const WITH_US: Text := "  with us!  "

  // ---------------------------------------------------------------------
  // The procedures

  /** `screen_error` */
  function ErrorScreen(t: Term): (r: Option<Term>)
    requires Valid(t)
    ensures r.Some? ==> Valid(r.value)
  {
    var t := t.(bg := BLUE);
    var t := t.(fg := WHITE);
    var t :- Clear(t);
    var t := Goto(t, 0, 0).value;
    var t := t.(bg := RED);
    var t :- PutS(t, SPACE_NEWLINE);
    var t :- PutS(t, ERROR_TITLE);
    var t :- PutS(t, SPACE_NEWLINE);
    var t := t.(bg := BLACK);
    Some(t)
  }

  /** `screen_start` */
  function StartScreen(t: Term): (r: Option<Term>)
    requires Valid(t)
    ensures r.Some? ==> Valid(r.value)
  {
    var t := t.(bg := DK_GRAY);
    var t := t.(fg := WHITE);
    var t :- Clear(t);
    var t := t.(bg := BLUE);
    var t := Goto(t, 16, 35).value;
    var t :- PutS(t, BLANKS_11);
    var t := Goto(t, 17, 35).value;
    var t :- PutS(t, PRESS_ANY);
    var t := Goto(t, 18, 35).value;
    var t :- PutS(t, BUTTON);
    var t := Goto(t, 19, 35).value;
    var t :- PutS(t, TO_START);
    var t := Goto(t, 20, 35).value;
    var t :- PutS(t, BLANKS_11);
    var t := t.(bg := BLACK);
    Some(t)
  }

  /** `screen_paying` */
  function PayingScreen(t: Term): (r: Option<Term>)
    requires Valid(t)
    ensures r.Some? ==> Valid(r.value)
  {
    var t := t.(bg := DK_GRAY);
    var t := t.(fg := WHITE);
    var t :- Clear(t);
    var t := t.(bg := BLUE);
    var t := Goto(t, 0, 0).value;
    var t :- PutS(t, SPACE_NEWLINE);
    var t :- PutS(t, PAYMENT_TITLE);
    var t :- PutS(t, SPACE_NEWLINE);
    var t := Goto(t, 17, 35).value;
    var t :- PutS(t, BLANKS_10);
    var t := Goto(t, 18, 35).value;
    var t :- PutS(t, PLEASE);
    var t := Goto(t, 19, 35).value;
    var t :- PutS(t, PAY_NOW);
    var t := Goto(t, 20, 35).value;
    var t :- PutS(t, BLANKS_10);
    var t := t.(bg := BLACK);
    Some(t)
  }

  /** `screen_confirm` */
  function ConfirmScreen(t: Term): (r: Option<Term>)
    requires Valid(t)
    ensures r.Some? ==> Valid(r.value)
  {
    var t := t.(bg := DK_GRAY);
    var t := t.(fg := WHITE);
    var t :- Clear(t);
    var t := t.(bg := BLUE);
    var t := Goto(t, 0, 0).value;
    var t :- PutS(t, SPACE_NEWLINE);
    var t :- PutS(t, CONFIRMATION_TITLE);
    var t :- PutS(t, SPACE_NEWLINE);
    var t := Goto(t, 17, 35).value;
    var t :- PutS(t, BLANKS_11);
    var t := Goto(t, 18, 35).value;
    var t :- PutS(t, DO_YOU);
    var t := Goto(t, 19, 35).value;
    var t :- PutS(t, WANT_TO);
    var t := Goto(t, 20, 35).value;
    var t :- PutS(t, CONTINUE);
    var t := Goto(t, 21, 35).value;
    var t :- PutS(t, BLANKS_11);
    var t := t.(bg := 0x08);
    var t := Goto(t, 11, 0).value;
    var t :- PutS(t, BLANKS_5);
    var t := Goto(t, 12, 0).value;
    var t :- PutS(t, YES);
    var t := Goto(t, 13, 0).value;
    var t :- PutS(t, BLANKS_5);
    var t := t.(bg := 0x02);
    var t := Goto(t, 24, 0).value;
    var t :- PutS(t, BLANKS_5);
    var t := Goto(t, 25, 0).value;
    var t :- PutS(t, NO);
    var t := Goto(t, 26, 0).value;
    var t :- PutS(t, BLANKS_5);
    var t := t.(bg := BLACK);
    Some(t)
  }

  /** `screen_line1` */
  function Line1Screen(t: Term): (r: Option<Term>)
    requires Valid(t)
    ensures r.Some? ==> Valid(r.value)
  {
    var t := t.(bg := DK_GRAY);
    var t := t.(fg := WHITE);
    var t :- Clear(t);
    var t := t.(bg := BLUE);
    var t := Goto(t, 0, 0).value;
    var t :- PutS(t, SPACE_NEWLINE);
    var t :- PutS(t, LINE_1_TITLE);
    var t :- PutS(t, SPACE_NEWLINE);
    var t := Goto(t, 16, 35).value;
    var t :- PutS(t, BLANKS_11);
    var t := Goto(t, 17, 35).value;
    var t :- PutS(t, CHOOSE_A);
    var t := Goto(t, 18, 35).value;
    var t :- PutS(t, TICKET_TO);
    var t := Goto(t, 19, 35).value;
    var t :- PutS(t, PURCHASE);
    var t := Goto(t, 20, 35).value;
    var t :- PutS(t, BLANKS_11);
    var t := Goto(t, 10, 0).value;
    var t :- PutS(t, BLANKS_6);
    var t := Goto(t, 11, 0).value;
    var t :- PutS(t, TICKET_A);
    var t := Goto(t, 12, 0).value;
    var t :- PutS(t, BLANKS_6);
    var t := Goto(t, 10, 74).value;
    var t :- PutS(t, BLANKS_6);
    var t := Goto(t, 11, 74).value;
    var t :- PutS(t, TICKET_B);
    var t := Goto(t, 12, 74).value;
    var t :- PutS(t, BLANKS_6);
    var t := Goto(t, 25, 0).value;
    var t :- PutS(t, BLANKS_6);
    var t := Goto(t, 26, 0).value;
    var t :- PutS(t, QUIT);
    var t := Goto(t, 27, 0).value;
    var t :- PutS(t, BLANKS_6);
    var t := Goto(t, 25, 74).value;
    var t :- PutS(t, BLANKS_6);
    var t := Goto(t, 26, 74).value;
    var t :- PutS(t, NEXT);
    var t := Goto(t, 27, 74).value;
    var t :- PutS(t, BLANKS_6);
    Some(t)
  }

  /** `screen_line2` */
  function Line2Screen(t: Term): (r: Option<Term>)
    requires Valid(t)
    ensures r.Some? ==> Valid(r.value)
  {
    var t := t.(bg := DK_GRAY);
    var t := t.(fg := WHITE);
    var t :- Clear(t);
    var t := t.(bg := BLUE);
    var t := Goto(t, 0, 0).value;
    var t :- PutS(t, SPACE_NEWLINE);
    var t :- PutS(t, LINE_2_TITLE);
    var t :- PutS(t, SPACE_NEWLINE);
    var t := Goto(t, 16, 35).value;
    var t :- PutS(t, BLANKS_11);
    var t := Goto(t, 17, 35).value;
    var t :- PutS(t, CHOOSE_A);
    var t := Goto(t, 18, 35).value;
    var t :- PutS(t, TICKET_TO);
    var t := Goto(t, 19, 35).value;
    var t :- PutS(t, PURCHASE);
    var t := Goto(t, 20, 35).value;
    var t :- PutS(t, BLANKS_11);
    var t := Goto(t, 10, 0).value;
    var t :- PutS(t, BLANKS_6);
    var t := Goto(t, 11, 0).value;
    var t :- PutS(t, TICKET_C);
    var t := Goto(t, 12, 0).value;
    var t :- PutS(t, BLANKS_6);
    var t := Goto(t, 10, 74).value;
    var t :- PutS(t, BLANKS_6);
    var t := Goto(t, 11, 74).value;
    var t :- PutS(t, TICKET_D);
    var t := Goto(t, 12, 74).value;
    var t :- PutS(t, BLANKS_6);
    var t := Goto(t, 25, 0).value;
    var t :- PutS(t, BLANKS_6);
    var t := Goto(t, 26, 0).value;
    var t :- PutS(t, PREV);
    var t := Goto(t, 27, 0).value;
    var t :- PutS(t, BLANKS_6);
    var t := Goto(t, 25, 74).value;
    var t :- PutS(t, BLANKS_6);
    var t := Goto(t, 26, 74).value;
    var t :- PutS(t, NEXT);
    var t := Goto(t, 27, 74).value;
    var t :- PutS(t, BLANKS_6);
    Some(t)
  }

  /** `screen_line3` */
  function Line3Screen(t: Term): (r: Option<Term>)
    requires Valid(t)
    ensures r.Some? ==> Valid(r.value)
  {
    var t := t.(bg := DK_GRAY);
    var t := t.(fg := WHITE);
    var t :- Clear(t);
    var t := t.(bg := BLUE);
    var t := Goto(t, 0, 0).value;
    var t :- PutS(t, SPACE_NEWLINE);
    var t :- PutS(t, LINE_3_TITLE);
    var t :- PutS(t, SPACE_NEWLINE);
    var t := Goto(t, 16, 35).value;
    var t :- PutS(t, BLANKS_11);
    var t := Goto(t, 17, 35).value;
    var t :- PutS(t, CHOOSE_A);
    var t := Goto(t, 18, 35).value;
    var t :- PutS(t, TICKET_TO);
    var t := Goto(t, 19, 35).value;
    var t :- PutS(t, PURCHASE);
    var t := Goto(t, 20, 35).value;
    var t :- PutS(t, BLANKS_11);
    var t := Goto(t, 10, 0).value;
    var t :- PutS(t, BLANKS_6);
    var t := Goto(t, 11, 0).value;
    var t :- PutS(t, TICKET_E);
    var t := Goto(t, 12, 0).value;
    var t :- PutS(t, BLANKS_6);
    var t := Goto(t, 10, 74).value;
    var t :- PutS(t, BLANKS_6);
    var t := Goto(t, 11, 74).value;
    var t :- PutS(t, TICKET_F);
    var t := Goto(t, 12, 74).value;
    var t :- PutS(t, BLANKS_6);
    var t := Goto(t, 25, 0).value;
    var t :- PutS(t, BLANKS_6);
    var t := Goto(t, 26, 0).value;
    var t :- PutS(t, PREV);
    var t := Goto(t, 27, 0).value;
    var t :- PutS(t, BLANKS_6);
    var t := Goto(t, 25, 74).value;
    var t :- PutS(t, BLANKS_6);
    var t := Goto(t, 26, 74).value;
    var t :- PutS(t, QUIT);
    var t := Goto(t, 27, 74).value;
    var t :- PutS(t, BLANKS_6);
    Some(t)
  }

  /** `screen_thanks` */
  function ThanksScreen(t: Term): (r: Option<Term>)
    requires Valid(t)
    ensures r.Some? ==> Valid(r.value)
  {
    var t := t.(bg := DK_GRAY);
    var t := t.(fg := WHITE);
    var t :- Clear(t);
    var t := t.(bg := BLUE);
    var t := Goto(t, 0, 0).value;
    var t :- PutS(t, SPACE_NEWLINE);
    var t :- PutS(t, THANK_YOU_TITLE);
    var t :- PutS(t, SPACE_NEWLINE);
    var t := t.(bg := 0x04);
    var t := t.(fg := BLACK);
    var t := Goto(t, 17, 34).value;
    var t :- PutS(t, BLANKS_12);
    var t := Goto(t, 18, 34).value;
    var t :- PutS(t, THANKS_FOR);
    var t := Goto(t, 19, 34).value;
    var t :- PutS(t, TRAVELLING);
    var t := Goto(t, 20, 34).value;
    var t :- PutS(t, WITH_US);
    var t := Goto(t, 21, 34).value;
    var t :- PutS(t, BLANKS_12);
    Some(t)
  }

  /** Runs the screen procedure for `sc`. */
  function Paint(sc: Screen, t: Term): (r: Option<Term>)
    requires Valid(t)
    ensures r.Some? ==> Valid(r.value)
  {
    match sc
    case Error => ErrorScreen(t)
    case Start => StartScreen(t)
    case Paying => PayingScreen(t)
    case Confirm => ConfirmScreen(t)
    case Line1 => Line1Screen(t)
    case Line2 => Line2Screen(t)
    case Line3 => Line3Screen(t)
    case Thanks => ThanksScreen(t)
  }

  // ---------------------------------------------------------------------
  // One step of a screen

  lemma RowCol(row: nat, col: nat)
    requires col < COLS
    ensures (row * COLS + col) / COLS == row && (row * COLS + col) % COLS == col
  {
  }

  /** Where the cursor ends after `puts` of `n` bytes with no line break that
      fit on row `row` from column `col`. */
  predicate After(u: Term, row: nat, col: nat, n: nat) {
    if col + n == COLS then u.row == row + 1 && u.col == 0 else u.row == row && u.col == col + n
  }

  lemma AfterPos(t: Term, u: Term, n: nat)
    requires Valid(t) && Valid(u) && t.col + n <= COLS && Pos(u) == Pos(t) + n
    ensures After(u, t.row, t.col, n)
  {
    RowCol(u.row, u.col);
    if t.col + n == COLS {
      RowCol(t.row + 1, 0);
    } else {
      RowCol(t.row, t.col + n);
    }
  }

  /** `puts` of text with no line break that fits on a row of the grid never
      panics. */
  lemma TextFits(t: Term, s: Text)
    requires Valid(t) && t.row < ROWS && t.col + |s| <= COLS
    ensures PutS(t, s).Some? && After(PutS(t, s).value, t.row, t.col, |s|)
  {
    PutSPlain(t, s);
    AfterPos(t, PutS(t, s).value, |s|);
  }

  /** `puts(b" \n")` at the start of a row of the grid never panics and moves
      to the start of the next row. */
  lemma LineFits(t: Term)
    requires Valid(t) && t.col == 0 && t.row < ROWS
    ensures PutS(t, SPACE_NEWLINE).Some?
    ensures PutS(t, SPACE_NEWLINE).value.row == t.row + 1 && PutS(t, SPACE_NEWLINE).value.col == 0
  {
    SpaceNewline(t);
  }

  /** `puts` of text that stays on one row of box `b` of `sc` never panics and
      keeps every cell outside the boxes blank. */
  lemma BoxText(sc: Screen, b: Box, t: Term, s: Text) returns (u: Term)
    requires Valid(t) && BlankOutside(sc, t.cells)
    requires b in Boxes(sc) && b.top <= t.row < b.top + b.height
    requires b.left <= t.col && t.col + |s| <= b.left + b.width
    ensures PutS(t, s) == Some(u) && Valid(u) && BlankOutside(sc, u.cells)
    ensures After(u, t.row, t.col, |s|) && u.fg == t.fg && u.bg == t.bg
  {
    PutSPlain(t, s);
    u := PutS(t, s).value;
    AfterPos(t, u, |s|);
    forall i | Pos(t) <= i < Pos(t) + |s|
      ensures b.Contains(i)
    {
      RowCol(t.row, i - t.row * COLS);
    }
  }

  /** `puts(b" \n")` at the start of a row of the title bar never panics and
      keeps every cell outside the boxes blank. */
  lemma TitleLine(sc: Screen, t: Term) returns (u: Term)
    requires Valid(t) && BlankOutside(sc, t.cells)
    requires TITLE in Boxes(sc) && t.row < TITLE.height && t.col == 0
    ensures PutS(t, SPACE_NEWLINE) == Some(u) && Valid(u) && BlankOutside(sc, u.cells)
    ensures u.row == t.row + 1 && u.col == 0 && u.fg == t.fg && u.bg == t.bg
  {
    SpaceNewline(t);
    u := PutS(t, SPACE_NEWLINE).value;
    forall i | Pos(t) <= i < Pos(t) + COLS
      ensures TITLE.Contains(i)
    {
      RowCol(t.row, i - t.row * COLS);
    }
  }

  // ---------------------------------------------------------------------
  // Each screen never panics and leaves everything outside its boxes blank

  /** `screen_error` never panics, every cell outside its boxes is blank, and the
      result does not depend on the state it starts from. */
  lemma ErrorLayout(t: Term)
    requires Valid(t)
    ensures ErrorScreen(t).Some? && BlankOutside(Error, ErrorScreen(t).value.cells)
    ensures ErrorScreen(t) == ErrorScreen(Cleared(ClearFg(Error), ClearBg(Error)))
  {
    var u := t;
    var v := Cleared(ClearFg(Error), ClearBg(Error));
    v := v.(bg := BLUE);
    u := u.(bg := BLUE);
    v := v.(fg := WHITE);
    u := u.(fg := WHITE);
    ClearBlanks(v);
    ClearBlanks(u);
    u := Cleared(u.fg, u.bg);
    u := Goto(u, 0, 0).value;
    u := u.(bg := RED);
    u := TitleLine(Error, u);
    u := BoxText(Error, TITLE, u, ERROR_TITLE);
    u := TitleLine(Error, u);
    u := u.(bg := BLACK);
    assert ErrorScreen(t) == Some(u);
    assert ErrorScreen(Cleared(ClearFg(Error), ClearBg(Error))) == Some(u);
  }

  /** `screen_start` never panics, every cell outside its boxes is blank, and the
      result does not depend on the state it starts from. */
  lemma StartLayout(t: Term)
    requires Valid(t)
    ensures StartScreen(t).Some? && BlankOutside(Start, StartScreen(t).value.cells)
    ensures StartScreen(t) == StartScreen(Cleared(ClearFg(Start), ClearBg(Start)))
  {
    var u := t;
    var v := Cleared(ClearFg(Start), ClearBg(Start));
    v := v.(bg := DK_GRAY);
    u := u.(bg := DK_GRAY);
    v := v.(fg := WHITE);
    u := u.(fg := WHITE);
    ClearBlanks(v);
    ClearBlanks(u);
    u := Cleared(u.fg, u.bg);
    u := u.(bg := BLUE);
    u := Goto(u, 16, 35).value;
    u := BoxText(Start, Box(16, 35, 5, 11), u, BLANKS_11);
    u := Goto(u, 17, 35).value;
    u := BoxText(Start, Box(16, 35, 5, 11), u, PRESS_ANY);
    u := Goto(u, 18, 35).value;
    u := BoxText(Start, Box(16, 35, 5, 11), u, BUTTON);
    u := Goto(u, 19, 35).value;
    u := BoxText(Start, Box(16, 35, 5, 11), u, TO_START);
    u := Goto(u, 20, 35).value;
    u := BoxText(Start, Box(16, 35, 5, 11), u, BLANKS_11);
    u := u.(bg := BLACK);
    assert StartScreen(t) == Some(u);
    assert StartScreen(Cleared(ClearFg(Start), ClearBg(Start))) == Some(u);
  }

  /** `screen_paying` never panics, every cell outside its boxes is blank, and the
      result does not depend on the state it starts from. */
  lemma PayingLayout(t: Term)
    requires Valid(t)
    ensures PayingScreen(t).Some? && BlankOutside(Paying, PayingScreen(t).value.cells)
    ensures PayingScreen(t) == PayingScreen(Cleared(ClearFg(Paying), ClearBg(Paying)))
  {
    var u := t;
    var v := Cleared(ClearFg(Paying), ClearBg(Paying));
    v := v.(bg := DK_GRAY);
    u := u.(bg := DK_GRAY);
    v := v.(fg := WHITE);
    u := u.(fg := WHITE);
    ClearBlanks(v);
    ClearBlanks(u);
    u := Cleared(u.fg, u.bg);
    u := u.(bg := BLUE);
    u := Goto(u, 0, 0).value;
    u := TitleLine(Paying, u);
    u := BoxText(Paying, TITLE, u, PAYMENT_TITLE);
    u := TitleLine(Paying, u);
    u := Goto(u, 17, 35).value;
    u := BoxText(Paying, Box(17, 35, 4, 10), u, BLANKS_10);
    u := Goto(u, 18, 35).value;
    u := BoxText(Paying, Box(17, 35, 4, 10), u, PLEASE);
    u := Goto(u, 19, 35).value;
    u := BoxText(Paying, Box(17, 35, 4, 10), u, PAY_NOW);
    u := Goto(u, 20, 35).value;
    u := BoxText(Paying, Box(17, 35, 4, 10), u, BLANKS_10);
    u := u.(bg := BLACK);
    assert PayingScreen(t) == Some(u);
    assert PayingScreen(Cleared(ClearFg(Paying), ClearBg(Paying))) == Some(u);
  }

  /** `screen_confirm` never panics, every cell outside its boxes is blank, and the
      result does not depend on the state it starts from. */
  lemma ConfirmLayout(t: Term)
    requires Valid(t)
    ensures ConfirmScreen(t).Some? && BlankOutside(Confirm, ConfirmScreen(t).value.cells)
    ensures ConfirmScreen(t) == ConfirmScreen(Cleared(ClearFg(Confirm), ClearBg(Confirm)))
  {
    var u := t;
    var v := Cleared(ClearFg(Confirm), ClearBg(Confirm));
    v := v.(bg := DK_GRAY);
    u := u.(bg := DK_GRAY);
    v := v.(fg := WHITE);
    u := u.(fg := WHITE);
    ClearBlanks(v);
    ClearBlanks(u);
    u := Cleared(u.fg, u.bg);
    u := u.(bg := BLUE);
    u := Goto(u, 0, 0).value;
    u := TitleLine(Confirm, u);
    u := BoxText(Confirm, TITLE, u, CONFIRMATION_TITLE);
    u := TitleLine(Confirm, u);
    u := Goto(u, 17, 35).value;
    u := BoxText(Confirm, Box(17, 35, 5, 11), u, BLANKS_11);
    u := Goto(u, 18, 35).value;
    u := BoxText(Confirm, Box(17, 35, 5, 11), u, DO_YOU);
    u := Goto(u, 19, 35).value;
    u := BoxText(Confirm, Box(17, 35, 5, 11), u, WANT_TO);
    u := Goto(u, 20, 35).value;
    u := BoxText(Confirm, Box(17, 35, 5, 11), u, CONTINUE);
    u := Goto(u, 21, 35).value;
    u := BoxText(Confirm, Box(17, 35, 5, 11), u, BLANKS_11);
    u := u.(bg := 0x08);
    u := Goto(u, 11, 0).value;
    u := BoxText(Confirm, Box(11, 0, 3, 5), u, BLANKS_5);
    u := Goto(u, 12, 0).value;
    u := BoxText(Confirm, Box(11, 0, 3, 5), u, YES);
    u := Goto(u, 13, 0).value;
    u := BoxText(Confirm, Box(11, 0, 3, 5), u, BLANKS_5);
    u := u.(bg := 0x02);
    u := Goto(u, 24, 0).value;
    u := BoxText(Confirm, Box(24, 0, 3, 5), u, BLANKS_5);
    u := Goto(u, 25, 0).value;
    u := BoxText(Confirm, Box(24, 0, 3, 5), u, NO);
    u := Goto(u, 26, 0).value;
    u := BoxText(Confirm, Box(24, 0, 3, 5), u, BLANKS_5);
    u := u.(bg := BLACK);
    assert ConfirmScreen(t) == Some(u);
    assert ConfirmScreen(Cleared(ClearFg(Confirm), ClearBg(Confirm))) == Some(u);
  }

  /** `screen_line1` never panics, every cell outside its boxes is blank, and the
      result does not depend on the state it starts from. */
  lemma Line1Layout(t: Term)
    requires Valid(t)
    ensures Line1Screen(t).Some? && BlankOutside(Line1, Line1Screen(t).value.cells)
    ensures Line1Screen(t) == Line1Screen(Cleared(ClearFg(Line1), ClearBg(Line1)))
  {
    var u := t;
    var v := Cleared(ClearFg(Line1), ClearBg(Line1));
    v := v.(bg := DK_GRAY);
    u := u.(bg := DK_GRAY);
    v := v.(fg := WHITE);
    u := u.(fg := WHITE);
    ClearBlanks(v);
    ClearBlanks(u);
    u := Cleared(u.fg, u.bg);
    u := u.(bg := BLUE);
    u := Goto(u, 0, 0).value;
    u := TitleLine(Line1, u);
    u := BoxText(Line1, TITLE, u, LINE_1_TITLE);
    u := TitleLine(Line1, u);
    u := Goto(u, 16, 35).value;
    u := BoxText(Line1, Box(16, 35, 5, 11), u, BLANKS_11);
    u := Goto(u, 17, 35).value;
    u := BoxText(Line1, Box(16, 35, 5, 11), u, CHOOSE_A);
    u := Goto(u, 18, 35).value;
    u := BoxText(Line1, Box(16, 35, 5, 11), u, TICKET_TO);
    u := Goto(u, 19, 35).value;
    u := BoxText(Line1, Box(16, 35, 5, 11), u, PURCHASE);
    u := Goto(u, 20, 35).value;
    u := BoxText(Line1, Box(16, 35, 5, 11), u, BLANKS_11);
    u := Goto(u, 10, 0).value;
    u := BoxText(Line1, Box(10, 0, 3, 6), u, BLANKS_6);
    u := Goto(u, 11, 0).value;
    u := BoxText(Line1, Box(10, 0, 3, 6), u, TICKET_A);
    u := Goto(u, 12, 0).value;
    u := BoxText(Line1, Box(10, 0, 3, 6), u, BLANKS_6);
    u := Goto(u, 10, 74).value;
    u := BoxText(Line1, Box(10, 74, 3, 6), u, BLANKS_6);
    u := Goto(u, 11, 74).value;
    u := BoxText(Line1, Box(10, 74, 3, 6), u, TICKET_B);
    u := Goto(u, 12, 74).value;
    u := BoxText(Line1, Box(10, 74, 3, 6), u, BLANKS_6);
    u := Goto(u, 25, 0).value;
    u := BoxText(Line1, Box(25, 0, 3, 6), u, BLANKS_6);
    u := Goto(u, 26, 0).value;
    u := BoxText(Line1, Box(25, 0, 3, 6), u, QUIT);
    u := Goto(u, 27, 0).value;
    u := BoxText(Line1, Box(25, 0, 3, 6), u, BLANKS_6);
    u := Goto(u, 25, 74).value;
    u := BoxText(Line1, Box(25, 74, 3, 6), u, BLANKS_6);
    u := Goto(u, 26, 74).value;
    u := BoxText(Line1, Box(25, 74, 3, 6), u, NEXT);
    u := Goto(u, 27, 74).value;
    u := BoxText(Line1, Box(25, 74, 3, 6), u, BLANKS_6);
    assert Line1Screen(t) == Some(u);
    assert Line1Screen(Cleared(ClearFg(Line1), ClearBg(Line1))) == Some(u);
  }

  /** `screen_line2` never panics, every cell outside its boxes is blank, and the
      result does not depend on the state it starts from. */
  lemma Line2Layout(t: Term)
    requires Valid(t)
    ensures Line2Screen(t).Some? && BlankOutside(Line2, Line2Screen(t).value.cells)
    ensures Line2Screen(t) == Line2Screen(Cleared(ClearFg(Line2), ClearBg(Line2)))
  {
    var u := t;
    var v := Cleared(ClearFg(Line2), ClearBg(Line2));
    v := v.(bg := DK_GRAY);
    u := u.(bg := DK_GRAY);
    v := v.(fg := WHITE);
    u := u.(fg := WHITE);
    ClearBlanks(v);
    ClearBlanks(u);
    u := Cleared(u.fg, u.bg);
    u := u.(bg := BLUE);
    u := Goto(u, 0, 0).value;
    u := TitleLine(Line2, u);
    u := BoxText(Line2, TITLE, u, LINE_2_TITLE);
    u := TitleLine(Line2, u);
    u := Goto(u, 16, 35).value;
    u := BoxText(Line2, Box(16, 35, 5, 11), u, BLANKS_11);
    u := Goto(u, 17, 35).value;
    u := BoxText(Line2, Box(16, 35, 5, 11), u, CHOOSE_A);
    u := Goto(u, 18, 35).value;
    u := BoxText(Line2, Box(16, 35, 5, 11), u, TICKET_TO);
    u := Goto(u, 19, 35).value;
    u := BoxText(Line2, Box(16, 35, 5, 11), u, PURCHASE);
    u := Goto(u, 20, 35).value;
    u := BoxText(Line2, Box(16, 35, 5, 11), u, BLANKS_11);
    u := Goto(u, 10, 0).value;
    u := BoxText(Line2, Box(10, 0, 3, 6), u, BLANKS_6);
    u := Goto(u, 11, 0).value;
    u := BoxText(Line2, Box(10, 0, 3, 6), u, TICKET_C);
    u := Goto(u, 12, 0).value;
    u := BoxText(Line2, Box(10, 0, 3, 6), u, BLANKS_6);
    u := Goto(u, 10, 74).value;
    u := BoxText(Line2, Box(10, 74, 3, 6), u, BLANKS_6);
    u := Goto(u, 11, 74).value;
    u := BoxText(Line2, Box(10, 74, 3, 6), u, TICKET_D);
    u := Goto(u, 12, 74).value;
    u := BoxText(Line2, Box(10, 74, 3, 6), u, BLANKS_6);
    u := Goto(u, 25, 0).value;
    u := BoxText(Line2, Box(25, 0, 3, 6), u, BLANKS_6);
    u := Goto(u, 26, 0).value;
    u := BoxText(Line2, Box(25, 0, 3, 6), u, PREV);
    u := Goto(u, 27, 0).value;
    u := BoxText(Line2, Box(25, 0, 3, 6), u, BLANKS_6);
    u := Goto(u, 25, 74).value;
    u := BoxText(Line2, Box(25, 74, 3, 6), u, BLANKS_6);
    u := Goto(u, 26, 74).value;
    u := BoxText(Line2, Box(25, 74, 3, 6), u, NEXT);
    u := Goto(u, 27, 74).value;
    u := BoxText(Line2, Box(25, 74, 3, 6), u, BLANKS_6);
    assert Line2Screen(t) == Some(u);
    assert Line2Screen(Cleared(ClearFg(Line2), ClearBg(Line2))) == Some(u);
  }

  /** `screen_line3` never panics, every cell outside its boxes is blank, and the
      result does not depend on the state it starts from. */
  lemma Line3Layout(t: Term)
    requires Valid(t)
    ensures Line3Screen(t).Some? && BlankOutside(Line3, Line3Screen(t).value.cells)
    ensures Line3Screen(t) == Line3Screen(Cleared(ClearFg(Line3), ClearBg(Line3)))
  {
    var u := t;
    var v := Cleared(ClearFg(Line3), ClearBg(Line3));
    v := v.(bg := DK_GRAY);
    u := u.(bg := DK_GRAY);
    v := v.(fg := WHITE);
    u := u.(fg := WHITE);
    ClearBlanks(v);
    ClearBlanks(u);
    u := Cleared(u.fg, u.bg);
    u := u.(bg := BLUE);
    u := Goto(u, 0, 0).value;
    u := TitleLine(Line3, u);
    u := BoxText(Line3, TITLE, u, LINE_3_TITLE);
    u := TitleLine(Line3, u);
    u := Goto(u, 16, 35).value;
    u := BoxText(Line3, Box(16, 35, 5, 11), u, BLANKS_11);
    u := Goto(u, 17, 35).value;
    u := BoxText(Line3, Box(16, 35, 5, 11), u, CHOOSE_A);
    u := Goto(u, 18, 35).value;
    u := BoxText(Line3, Box(16, 35, 5, 11), u, TICKET_TO);
    u := Goto(u, 19, 35).value;
    u := BoxText(Line3, Box(16, 35, 5, 11), u, PURCHASE);
    u := Goto(u, 20, 35).value;
    u := BoxText(Line3, Box(16, 35, 5, 11), u, BLANKS_11);
    u := Goto(u, 10, 0).value;
    u := BoxText(Line3, Box(10, 0, 3, 6), u, BLANKS_6);
    u := Goto(u, 11, 0).value;
    u := BoxText(Line3, Box(10, 0, 3, 6), u, TICKET_E);
    u := Goto(u, 12, 0).value;
    u := BoxText(Line3, Box(10, 0, 3, 6), u, BLANKS_6);
    u := Goto(u, 10, 74).value;
    u := BoxText(Line3, Box(10, 74, 3, 6), u, BLANKS_6);
    u := Goto(u, 11, 74).value;
    u := BoxText(Line3, Box(10, 74, 3, 6), u, TICKET_F);
    u := Goto(u, 12, 74).value;
    u := BoxText(Line3, Box(10, 74, 3, 6), u, BLANKS_6);
    u := Goto(u, 25, 0).value;
    u := BoxText(Line3, Box(25, 0, 3, 6), u, BLANKS_6);
    u := Goto(u, 26, 0).value;
    u := BoxText(Line3, Box(25, 0, 3, 6), u, PREV);
    u := Goto(u, 27, 0).value;
    u := BoxText(Line3, Box(25, 0, 3, 6), u, BLANKS_6);
    u := Goto(u, 25, 74).value;
    u := BoxText(Line3, Box(25, 74, 3, 6), u, BLANKS_6);
    u := Goto(u, 26, 74).value;
    u := BoxText(Line3, Box(25, 74, 3, 6), u, QUIT);
    u := Goto(u, 27, 74).value;
    u := BoxText(Line3, Box(25, 74, 3, 6), u, BLANKS_6);
    assert Line3Screen(t) == Some(u);
    assert Line3Screen(Cleared(ClearFg(Line3), ClearBg(Line3))) == Some(u);
  }

  /** `screen_thanks` never panics, every cell outside its boxes is blank, and the
      result does not depend on the state it starts from. */
  lemma ThanksLayout(t: Term)
    requires Valid(t)
    ensures ThanksScreen(t).Some? && BlankOutside(Thanks, ThanksScreen(t).value.cells)
    ensures ThanksScreen(t) == ThanksScreen(Cleared(ClearFg(Thanks), ClearBg(Thanks)))
  {
    var u := t;
    var v := Cleared(ClearFg(Thanks), ClearBg(Thanks));
    v := v.(bg := DK_GRAY);
    u := u.(bg := DK_GRAY);
    v := v.(fg := WHITE);
    u := u.(fg := WHITE);
    ClearBlanks(v);
    ClearBlanks(u);
    u := Cleared(u.fg, u.bg);
    u := u.(bg := BLUE);
    u := Goto(u, 0, 0).value;
    u := TitleLine(Thanks, u);
    u := BoxText(Thanks, TITLE, u, THANK_YOU_TITLE);
    u := TitleLine(Thanks, u);
    u := u.(bg := 0x04);
    u := u.(fg := BLACK);
    u := Goto(u, 17, 34).value;
    u := BoxText(Thanks, Box(17, 34, 5, 12), u, BLANKS_12);
    u := Goto(u, 18, 34).value;
    u := BoxText(Thanks, Box(17, 34, 5, 12), u, THANKS_FOR);
    u := Goto(u, 19, 34).value;
    u := BoxText(Thanks, Box(17, 34, 5, 12), u, TRAVELLING);
    u := Goto(u, 20, 34).value;
    u := BoxText(Thanks, Box(17, 34, 5, 12), u, WITH_US);
    u := Goto(u, 21, 34).value;
    u := BoxText(Thanks, Box(17, 34, 5, 12), u, BLANKS_12);
    assert ThanksScreen(t) == Some(u);
    assert ThanksScreen(Cleared(ClearFg(Thanks), ClearBg(Thanks))) == Some(u);
  }

  // ---------------------------------------------------------------------
  // Any screen

  /** Whichever screen runs, it never panics, every cell outside its boxes is
      blank in its clearing colours, and what it leaves behind does not depend
      on the grid or cursor it started from. */
  lemma PaintLayout(sc: Screen, t: Term)
    requires Valid(t)
    ensures Paint(sc, t).Some? && BlankOutside(sc, Paint(sc, t).value.cells)
    ensures Paint(sc, t) == Paint(sc, Cleared(ClearFg(sc), ClearBg(sc)))
  {
    match sc
    case Error => ErrorLayout(t);
    case Start => StartLayout(t);
    case Paying => PayingLayout(t);
    case Confirm => ConfirmLayout(t);
    case Line1 => Line1Layout(t);
    case Line2 => Line2Layout(t);
    case Line3 => Line3Layout(t);
    case Thanks => ThanksLayout(t);
  }

  /** A screen draws the same thing whatever state it starts from. */
  lemma PaintIndependent(sc: Screen, t1: Term, t2: Term)
    requires Valid(t1) && Valid(t2)
    ensures Paint(sc, t1) == Paint(sc, t2)
  {
    PaintLayout(sc, t1);
    PaintLayout(sc, t2);
  }

  /** Drawing a screen a second time changes nothing. */
  lemma PaintTwice(sc: Screen, t: Term)
    requires Valid(t)
    ensures Paint(sc, t).Some? && Paint(sc, Paint(sc, t).value) == Paint(sc, t)
  {
    PaintLayout(sc, t);
    PaintIndependent(sc, Paint(sc, t).value, t);
  }
}
