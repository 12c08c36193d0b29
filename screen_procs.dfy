/**
 * The `screen_*` procedures as the source runs them: straight-line sequences
 * of colour assignments and cursor calls on a `Cursor`. Each is proved to
 * leave the cursor in the state the matching `Screens` function computes, so
 * every property proved there holds of the procedure; in particular every
 * `goto` and every write is within the grid.
 *
 * The `assert c.State() == before.(bg := X)` after each colour assignment
 * adds no fact of its own: it restates the assignment in terms of the
 * abstract state, which keeps the solver's work on these long procedures
 * within bounds (without them the longer screens run out of resources).
 */
module ScreenProcs {
  import opened Wrappers
  import opened Grid
  import opened CursorImpl
  import M = CursorSpec
  import S = Screens

  /** `screen_error` */
  method ScreenError(c: Cursor)
    requires c.Valid()
    modifies c, c.buf
    ensures c.Valid() && S.ErrorScreen(old(c.State())) == Some(c.State())
  {
    ghost var before1 := c.State();
    c.bg := BLUE;
    assert c.State() == before1.(bg := BLUE);
    ghost var before2 := c.State();
    c.fg := WHITE;
    assert c.State() == before2.(fg := WHITE);
    c.Clear();
    c.Goto(0, 0);
    ghost var before3 := c.State();
    c.bg := RED;
    assert c.State() == before3.(bg := RED);
    S.LineFits(c.State());
    c.PutS(S.SPACE_NEWLINE);
    S.TextFits(c.State(), S.ERROR_TITLE);
    c.PutS(S.ERROR_TITLE);
    S.LineFits(c.State());
    c.PutS(S.SPACE_NEWLINE);
    ghost var before4 := c.State();
    c.bg := BLACK;
    assert c.State() == before4.(bg := BLACK);
  }

  /** `screen_start` */
  method ScreenStart(c: Cursor)
    requires c.Valid()
    modifies c, c.buf
    ensures c.Valid() && S.StartScreen(old(c.State())) == Some(c.State())
  {
    ghost var before1 := c.State();
    c.bg := DK_GRAY;
    assert c.State() == before1.(bg := DK_GRAY);
    ghost var before2 := c.State();
    c.fg := WHITE;
    assert c.State() == before2.(fg := WHITE);
    c.Clear();
    ghost var before3 := c.State();
    c.bg := BLUE;
    assert c.State() == before3.(bg := BLUE);
    c.Goto(16, 35);
    S.TextFits(c.State(), S.BLANKS_11);
    c.PutS(S.BLANKS_11);
    c.Goto(17, 35);
    S.TextFits(c.State(), S.PRESS_ANY);
    c.PutS(S.PRESS_ANY);
    c.Goto(18, 35);
    S.TextFits(c.State(), S.BUTTON);
    c.PutS(S.BUTTON);
    c.Goto(19, 35);
    S.TextFits(c.State(), S.TO_START);
    c.PutS(S.TO_START);
    c.Goto(20, 35);
    S.TextFits(c.State(), S.BLANKS_11);
    c.PutS(S.BLANKS_11);
    ghost var before4 := c.State();
    c.bg := BLACK;
    assert c.State() == before4.(bg := BLACK);
  }

  /** `screen_paying` */
  method ScreenPaying(c: Cursor)
    requires c.Valid()
    modifies c, c.buf
    ensures c.Valid() && S.PayingScreen(old(c.State())) == Some(c.State())
  {
    ghost var before1 := c.State();
    c.bg := DK_GRAY;
    assert c.State() == before1.(bg := DK_GRAY);
    ghost var before2 := c.State();
    c.fg := WHITE;
    assert c.State() == before2.(fg := WHITE);
    c.Clear();
    ghost var before3 := c.State();
    c.bg := BLUE;
    assert c.State() == before3.(bg := BLUE);
    c.Goto(0, 0);
    S.LineFits(c.State());
    c.PutS(S.SPACE_NEWLINE);
    S.TextFits(c.State(), S.PAYMENT_TITLE);
    c.PutS(S.PAYMENT_TITLE);
    S.LineFits(c.State());
    c.PutS(S.SPACE_NEWLINE);
    c.Goto(17, 35);
    S.TextFits(c.State(), S.BLANKS_10);
    c.PutS(S.BLANKS_10);
    c.Goto(18, 35);
    S.TextFits(c.State(), S.PLEASE);
    c.PutS(S.PLEASE);
    c.Goto(19, 35);
    S.TextFits(c.State(), S.PAY_NOW);
    c.PutS(S.PAY_NOW);
    c.Goto(20, 35);
    S.TextFits(c.State(), S.BLANKS_10);
    c.PutS(S.BLANKS_10);
    ghost var before4 := c.State();
    c.bg := BLACK;
    assert c.State() == before4.(bg := BLACK);
  }

  /** `screen_confirm` */
  method ScreenConfirm(c: Cursor)
    requires c.Valid()
    modifies c, c.buf
    ensures c.Valid() && S.ConfirmScreen(old(c.State())) == Some(c.State())
  {
    ghost var before1 := c.State();
    c.bg := DK_GRAY;
    assert c.State() == before1.(bg := DK_GRAY);
    ghost var before2 := c.State();
    c.fg := WHITE;
    assert c.State() == before2.(fg := WHITE);
    c.Clear();
    ghost var before3 := c.State();
    c.bg := BLUE;
    assert c.State() == before3.(bg := BLUE);
    c.Goto(0, 0);
    S.LineFits(c.State());
    c.PutS(S.SPACE_NEWLINE);
    S.TextFits(c.State(), S.CONFIRMATION_TITLE);
    c.PutS(S.CONFIRMATION_TITLE);
    S.LineFits(c.State());
    c.PutS(S.SPACE_NEWLINE);
    c.Goto(17, 35);
    S.TextFits(c.State(), S.BLANKS_11);
    c.PutS(S.BLANKS_11);
    c.Goto(18, 35);
    S.TextFits(c.State(), S.DO_YOU);
    c.PutS(S.DO_YOU);
    c.Goto(19, 35);
    S.TextFits(c.State(), S.WANT_TO);
    c.PutS(S.WANT_TO);
    c.Goto(20, 35);
    S.TextFits(c.State(), S.CONTINUE);
    c.PutS(S.CONTINUE);
    c.Goto(21, 35);
    S.TextFits(c.State(), S.BLANKS_11);
    c.PutS(S.BLANKS_11);
    ghost var before4 := c.State();
    c.bg := 0x08;
    assert c.State() == before4.(bg := 0x08);
    c.Goto(11, 0);
    S.TextFits(c.State(), S.BLANKS_5);
    c.PutS(S.BLANKS_5);
    c.Goto(12, 0);
    S.TextFits(c.State(), S.YES);
    c.PutS(S.YES);
    c.Goto(13, 0);
    S.TextFits(c.State(), S.BLANKS_5);
    c.PutS(S.BLANKS_5);
    ghost var before5 := c.State();
    c.bg := 0x02;
    assert c.State() == before5.(bg := 0x02);
    c.Goto(24, 0);
    S.TextFits(c.State(), S.BLANKS_5);
    c.PutS(S.BLANKS_5);
    c.Goto(25, 0);
    S.TextFits(c.State(), S.NO);
    c.PutS(S.NO);
    c.Goto(26, 0);
    S.TextFits(c.State(), S.BLANKS_5);
    c.PutS(S.BLANKS_5);
    ghost var before6 := c.State();
    c.bg := BLACK;
    assert c.State() == before6.(bg := BLACK);
  }

  /** `screen_line1` */
  method ScreenLine1(c: Cursor)
    requires c.Valid()
    modifies c, c.buf
    ensures c.Valid() && S.Line1Screen(old(c.State())) == Some(c.State())
  {
    ghost var before1 := c.State();
    c.bg := DK_GRAY;
    assert c.State() == before1.(bg := DK_GRAY);
    ghost var before2 := c.State();
    c.fg := WHITE;
    assert c.State() == before2.(fg := WHITE);
    c.Clear();
    ghost var before3 := c.State();
    c.bg := BLUE;
    assert c.State() == before3.(bg := BLUE);
    c.Goto(0, 0);
    S.LineFits(c.State());
    c.PutS(S.SPACE_NEWLINE);
    S.TextFits(c.State(), S.LINE_1_TITLE);
    c.PutS(S.LINE_1_TITLE);
    S.LineFits(c.State());
    c.PutS(S.SPACE_NEWLINE);
    c.Goto(16, 35);
    S.TextFits(c.State(), S.BLANKS_11);
    c.PutS(S.BLANKS_11);
    c.Goto(17, 35);
    S.TextFits(c.State(), S.CHOOSE_A);
    c.PutS(S.CHOOSE_A);
    c.Goto(18, 35);
    S.TextFits(c.State(), S.TICKET_TO);
    c.PutS(S.TICKET_TO);
    c.Goto(19, 35);
    S.TextFits(c.State(), S.PURCHASE);
    c.PutS(S.PURCHASE);
    c.Goto(20, 35);
    S.TextFits(c.State(), S.BLANKS_11);
    c.PutS(S.BLANKS_11);
    c.Goto(10, 0);
    S.TextFits(c.State(), S.BLANKS_6);
    c.PutS(S.BLANKS_6);
    c.Goto(11, 0);
    S.TextFits(c.State(), S.TICKET_A);
    c.PutS(S.TICKET_A);
    c.Goto(12, 0);
    S.TextFits(c.State(), S.BLANKS_6);
    c.PutS(S.BLANKS_6);
    c.Goto(10, 74);
    S.TextFits(c.State(), S.BLANKS_6);
    c.PutS(S.BLANKS_6);
    c.Goto(11, 74);
    S.TextFits(c.State(), S.TICKET_B);
    c.PutS(S.TICKET_B);
    c.Goto(12, 74);
    S.TextFits(c.State(), S.BLANKS_6);
    c.PutS(S.BLANKS_6);
    c.Goto(25, 0);
    S.TextFits(c.State(), S.BLANKS_6);
    c.PutS(S.BLANKS_6);
    c.Goto(26, 0);
    S.TextFits(c.State(), S.QUIT);
    c.PutS(S.QUIT);
    c.Goto(27, 0);
    S.TextFits(c.State(), S.BLANKS_6);
    c.PutS(S.BLANKS_6);
    c.Goto(25, 74);
    S.TextFits(c.State(), S.BLANKS_6);
    c.PutS(S.BLANKS_6);
    c.Goto(26, 74);
    S.TextFits(c.State(), S.NEXT);
    c.PutS(S.NEXT);
    c.Goto(27, 74);
    S.TextFits(c.State(), S.BLANKS_6);
    c.PutS(S.BLANKS_6);
  }

  /** `screen_line2` */
  method ScreenLine2(c: Cursor)
    requires c.Valid()
    modifies c, c.buf
    ensures c.Valid() && S.Line2Screen(old(c.State())) == Some(c.State())
  {
    ghost var before1 := c.State();
    c.bg := DK_GRAY;
    assert c.State() == before1.(bg := DK_GRAY);
    ghost var before2 := c.State();
    c.fg := WHITE;
    assert c.State() == before2.(fg := WHITE);
    c.Clear();
    ghost var before3 := c.State();
    c.bg := BLUE;
    assert c.State() == before3.(bg := BLUE);
    c.Goto(0, 0);
    S.LineFits(c.State());
    c.PutS(S.SPACE_NEWLINE);
    S.TextFits(c.State(), S.LINE_2_TITLE);
    c.PutS(S.LINE_2_TITLE);
    S.LineFits(c.State());
    c.PutS(S.SPACE_NEWLINE);
    c.Goto(16, 35);
    S.TextFits(c.State(), S.BLANKS_11);
    c.PutS(S.BLANKS_11);
    c.Goto(17, 35);
    S.TextFits(c.State(), S.CHOOSE_A);
    c.PutS(S.CHOOSE_A);
    c.Goto(18, 35);
    S.TextFits(c.State(), S.TICKET_TO);
    c.PutS(S.TICKET_TO);
    c.Goto(19, 35);
    S.TextFits(c.State(), S.PURCHASE);
    c.PutS(S.PURCHASE);
    c.Goto(20, 35);
    S.TextFits(c.State(), S.BLANKS_11);
    c.PutS(S.BLANKS_11);
    c.Goto(10, 0);
    S.TextFits(c.State(), S.BLANKS_6);
    c.PutS(S.BLANKS_6);
    c.Goto(11, 0);
    S.TextFits(c.State(), S.TICKET_C);
    c.PutS(S.TICKET_C);
    c.Goto(12, 0);
    S.TextFits(c.State(), S.BLANKS_6);
    c.PutS(S.BLANKS_6);
    c.Goto(10, 74);
    S.TextFits(c.State(), S.BLANKS_6);
    c.PutS(S.BLANKS_6);
    c.Goto(11, 74);
    S.TextFits(c.State(), S.TICKET_D);
    c.PutS(S.TICKET_D);
    c.Goto(12, 74);
    S.TextFits(c.State(), S.BLANKS_6);
    c.PutS(S.BLANKS_6);
    c.Goto(25, 0);
    S.TextFits(c.State(), S.BLANKS_6);
    c.PutS(S.BLANKS_6);
    c.Goto(26, 0);
    S.TextFits(c.State(), S.PREV);
    c.PutS(S.PREV);
    c.Goto(27, 0);
    S.TextFits(c.State(), S.BLANKS_6);
    c.PutS(S.BLANKS_6);
    c.Goto(25, 74);
    S.TextFits(c.State(), S.BLANKS_6);
    c.PutS(S.BLANKS_6);
    c.Goto(26, 74);
    S.TextFits(c.State(), S.NEXT);
    c.PutS(S.NEXT);
    c.Goto(27, 74);
    S.TextFits(c.State(), S.BLANKS_6);
    c.PutS(S.BLANKS_6);
  }

  /** `screen_line3` */
  method ScreenLine3(c: Cursor)
    requires c.Valid()
    modifies c, c.buf
    ensures c.Valid() && S.Line3Screen(old(c.State())) == Some(c.State())
  {
    ghost var before1 := c.State();
    c.bg := DK_GRAY;
    assert c.State() == before1.(bg := DK_GRAY);
    ghost var before2 := c.State();
    c.fg := WHITE;
    assert c.State() == before2.(fg := WHITE);
    c.Clear();
    ghost var before3 := c.State();
    c.bg := BLUE;
    assert c.State() == before3.(bg := BLUE);
    c.Goto(0, 0);
    S.LineFits(c.State());
    c.PutS(S.SPACE_NEWLINE);
    S.TextFits(c.State(), S.LINE_3_TITLE);
    c.PutS(S.LINE_3_TITLE);
    S.LineFits(c.State());
    c.PutS(S.SPACE_NEWLINE);
    c.Goto(16, 35);
    S.TextFits(c.State(), S.BLANKS_11);
    c.PutS(S.BLANKS_11);
    c.Goto(17, 35);
    S.TextFits(c.State(), S.CHOOSE_A);
    c.PutS(S.CHOOSE_A);
    c.Goto(18, 35);
    S.TextFits(c.State(), S.TICKET_TO);
    c.PutS(S.TICKET_TO);
    c.Goto(19, 35);
    S.TextFits(c.State(), S.PURCHASE);
    c.PutS(S.PURCHASE);
    c.Goto(20, 35);
    S.TextFits(c.State(), S.BLANKS_11);
    c.PutS(S.BLANKS_11);
    c.Goto(10, 0);
    S.TextFits(c.State(), S.BLANKS_6);
    c.PutS(S.BLANKS_6);
    c.Goto(11, 0);
    S.TextFits(c.State(), S.TICKET_E);
    c.PutS(S.TICKET_E);
    c.Goto(12, 0);
    S.TextFits(c.State(), S.BLANKS_6);
    c.PutS(S.BLANKS_6);
    c.Goto(10, 74);
    S.TextFits(c.State(), S.BLANKS_6);
    c.PutS(S.BLANKS_6);
    c.Goto(11, 74);
    S.TextFits(c.State(), S.TICKET_F);
    c.PutS(S.TICKET_F);
    c.Goto(12, 74);
    S.TextFits(c.State(), S.BLANKS_6);
    c.PutS(S.BLANKS_6);
    c.Goto(25, 0);
    S.TextFits(c.State(), S.BLANKS_6);
    c.PutS(S.BLANKS_6);
    c.Goto(26, 0);
    S.TextFits(c.State(), S.PREV);
    c.PutS(S.PREV);
    c.Goto(27, 0);
    S.TextFits(c.State(), S.BLANKS_6);
    c.PutS(S.BLANKS_6);
    c.Goto(25, 74);
    S.TextFits(c.State(), S.BLANKS_6);
    c.PutS(S.BLANKS_6);
    c.Goto(26, 74);
    S.TextFits(c.State(), S.QUIT);
    c.PutS(S.QUIT);
    c.Goto(27, 74);
    S.TextFits(c.State(), S.BLANKS_6);
    c.PutS(S.BLANKS_6);
  }

  /** `screen_thanks` */
  method ScreenThanks(c: Cursor)
    requires c.Valid()
    modifies c, c.buf
    ensures c.Valid() && S.ThanksScreen(old(c.State())) == Some(c.State())
  {
    ghost var before1 := c.State();
    c.bg := DK_GRAY;
    assert c.State() == before1.(bg := DK_GRAY);
    ghost var before2 := c.State();
    c.fg := WHITE;
    assert c.State() == before2.(fg := WHITE);
    c.Clear();
    ghost var before3 := c.State();
    c.bg := BLUE;
    assert c.State() == before3.(bg := BLUE);
    c.Goto(0, 0);
    S.LineFits(c.State());
    c.PutS(S.SPACE_NEWLINE);
    S.TextFits(c.State(), S.THANK_YOU_TITLE);
    c.PutS(S.THANK_YOU_TITLE);
    S.LineFits(c.State());
    c.PutS(S.SPACE_NEWLINE);
    ghost var before4 := c.State();
    c.bg := 0x04;
    assert c.State() == before4.(bg := 0x04);
    ghost var before5 := c.State();
    c.fg := BLACK;
    assert c.State() == before5.(fg := BLACK);
    c.Goto(17, 34);
    S.TextFits(c.State(), S.BLANKS_12);
    c.PutS(S.BLANKS_12);
    c.Goto(18, 34);
    S.TextFits(c.State(), S.THANKS_FOR);
    c.PutS(S.THANKS_FOR);
    c.Goto(19, 34);
    S.TextFits(c.State(), S.TRAVELLING);
    c.PutS(S.TRAVELLING);
    c.Goto(20, 34);
    S.TextFits(c.State(), S.WITH_US);
    c.PutS(S.WITH_US);
    c.Goto(21, 34);
    S.TextFits(c.State(), S.BLANKS_12);
    c.PutS(S.BLANKS_12);
  }
}
