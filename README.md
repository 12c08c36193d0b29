# Kiosk text display (`hires_text`) in Dafny

The program drives an 800×600 VGA display from an STM32F4. It shows an 80×37
grid of attributed characters. Each cell holds a byte, a foreground colour and
a background colour. The firmware runs a small ticket-kiosk interface:

- three input pins (7, 8 and 9 of port C) select one of the screens
  error, start, paying, confirm, line 1, line 2 or thank-you;
- the main loop repaints the grid only when the pin code changes;
- every frame, it shows the code in three binary digits, white on red, near
  the bottom-right corner.

The model has three layers, one per part of the program's logic.

- **The cursor.** `Cursor` is a terminal-style write head over the grid, with
  `new`, `putc`, `puts`, `goto`, `clear` and `write_str`.
  - `CursorSpec` (`cursor_spec.dfy`) describes each operation as a function
    of a value `Term`: the grid, row, column and colours. `None` stands for a
    panic: a failed `assert!`, an out-of-range index, or an out-of-range slice.
  - `CursorImpl.Cursor` (`cursor.dfy`) is the class itself. It holds the grid
    as an array that its methods update in place, with the source's loops.
    Each method is proved to leave the object in the state the matching
    function computes.
- **The screens.** All eight `screen_*` procedures are modelled, including
  `screen_line3`, which the dispatch table never selects.
  - `Screens` (`screens.dfy`) gives each one as a function of the cursor
    state. Its lemmas prove three facts about every screen:
    - it never panics;
    - its result does not depend on the grid or cursor it starts from;
    - every cell outside the boxes it writes into is a blank in the colours
      it clears with.
  - `ScreenProcs` (`screen_procs.dfy`) holds the same procedures as
    straight-line methods on a `Cursor`. Each is proved to leave the cursor
    in the state its function computes.
- **The main loop.** `Kiosk` (`main_loop.dfy`) covers the rest of the loop:
  - packing the pins into a code, and the dispatch table;
  - the three-digit binary overlay;
  - one pass of the loop body, as a function `Frame` and as a method
    `LoopStep`;
  - start-up, and a run of the loop over a finite sequence of pin readings.

  The central result is `FrameShows`. Starting from any state the loop can
  reach, one frame leaves the grid showing exactly the current code's screen
  with its digits. Skipping the repaint when the code is unchanged is
  therefore invisible.

`grid.dfy` holds the grid constants, colours and the `AChar` record.
`wrappers.dfy` holds the `Option` type.

## Model

| member | source | states |
|---|---|---|
| CursorSpec.New | m4demos/src/bin/hires_text.rs:232-240 | a new cursor stands at row 0, column 0 (linear position 0), keeps the grid it is given, and satisfies the cursor invariant |
| CursorSpec.PutC | m4demos/src/bin/hires_text.rs:244-269 | panics exactly when the write head is off the grid (non-newline) or past its end (newline). A non-newline byte writes exactly cell `row*COLS+col` in the current colours and advances the linear position by one. A newline fills the rest of the row with spaces in the current colours (nothing at column 0) and moves to column 0 of the next row. The colours never change |
| CursorSpec.PutS | m4demos/src/bin/hires_text.rs:272-276 | `putc` on each byte left to right, panicking when any step does; its own contract keeps the cursor invariant and the colours. What the bytes do to the grid is stated by `PutSPlain` and `PutSAppend` |
| CursorSpec.EndOfLineIsRowEnd | m4demos/src/bin/hires_text.rs:247-248 | the rounding `(pos + COLS - 1) / COLS * COLS` is the end of the current row, or the position itself at column 0 |
| CursorSpec.PutSPlain | m4demos/src/bin/hires_text.rs:272-276 | `k` bytes with no newline written from linear position `p`, with `p + k <= COLS*ROWS`, never panic. They land at `p .. p+k-1` in order, in the current colours; every other cell is unchanged, and the write head ends at `p + k` |
| CursorSpec.PutSAppend | m4demos/src/bin/hires_text.rs:272-276 | `puts` of a concatenation is `puts` of the first part followed by `puts` of the second, and a panic in the first part is a panic of the whole |
| CursorSpec.Goto | m4demos/src/bin/hires_text.rs:279-284 | succeeds exactly when `row < ROWS && col < COLS`; it then moves the write head there and leaves the grid and colours unchanged |
| CursorSpec.Clear | m4demos/src/bin/hires_text.rs:287-292 | `goto(0, 0)` followed by `COLS*ROWS` spaces; its own contract keeps the cursor invariant and the colours. The resulting grid and position are stated by `ClearBlanks` |
| CursorSpec.ClearBlanks | m4demos/src/bin/hires_text.rs:287-292 | `clear` never panics. Every cell becomes a space in the current colours, the colours are unchanged, and the cursor ends at row `ROWS`, column 0 |
| CursorSpec.SpaceNewline | m4demos/src/bin/hires_text.rs:376-378 | the `b" \n"` the title bars type at column 0 blanks that whole row in the current colours and moves to the next row |
| CursorSpec.LowBytes | m4demos/src/bin/hires_text.rs:298-300 | `c as u32 as u8` on each character: the result has the string's length and each byte is its character's code modulo 256. `OverlayBytes` shows that ASCII digits pass through unchanged |
| CursorImpl.Cursor.constructor | m4demos/src/bin/hires_text.rs:232-240 | the cursor borrows the given array and its state is `CursorSpec.New` of it: position (0, 0), foreground 0xFF, background 0x20 |
| CursorImpl.Cursor.PutC | m4demos/src/bin/hires_text.rs:244-269 | the in-place update (including the newline padding loop) leaves exactly the state `CursorSpec.PutC` computes; the precondition is the source's index and slice bounds |
| CursorImpl.Cursor.PutS | m4demos/src/bin/hires_text.rs:272-276 | the loop of `putc` calls leaves exactly the state `CursorSpec.PutS` computes, for any input on which `puts` does not panic |
| CursorImpl.Cursor.Goto | m4demos/src/bin/hires_text.rs:279-284 | requires the asserted bounds; moves the write head to (row, col) and changes neither the array nor the colours |
| CursorImpl.Cursor.Clear | m4demos/src/bin/hires_text.rs:287-292 | afterwards the array holds `COLS*ROWS` spaces in the current colours, the colours are unchanged, and the cursor is at (ROWS, 0) |
| CursorImpl.Cursor.WriteStr | m4demos/src/bin/hires_text.rs:297-304 | types each character truncated to its low 8 bits, exactly as `puts` of those bytes would, and returns `Ok` |
| Screens.ErrorScreen | m4demos/src/bin/hires_text.rs:366-381 | `screen_error`'s colour assignments and cursor calls in order on a `Term`; its own contract keeps the cursor invariant. The layout facts are `Screens.ErrorLayout` |
| Screens.StartScreen | m4demos/src/bin/hires_text.rs:383-404 | `screen_start`'s colour assignments and cursor calls in order on a `Term`; its own contract keeps the cursor invariant. The layout facts are `Screens.StartLayout` |
| Screens.PayingScreen | m4demos/src/bin/hires_text.rs:406-431 | `screen_paying`'s colour assignments and cursor calls in order on a `Term`; its own contract keeps the cursor invariant. The layout facts are `Screens.PayingLayout` |
| Screens.ConfirmScreen | m4demos/src/bin/hires_text.rs:433-478 | `screen_confirm`'s colour assignments and cursor calls in order on a `Term`; its own contract keeps the cursor invariant. The layout facts are `Screens.ConfirmLayout` |
| Screens.Line1Screen | m4demos/src/bin/hires_text.rs:480-536 | `screen_line1`'s colour assignments and cursor calls in order on a `Term`; its own contract keeps the cursor invariant. The layout facts are `Screens.Line1Layout` |
| Screens.Line2Screen | m4demos/src/bin/hires_text.rs:538-594 | `screen_line2`'s colour assignments and cursor calls in order on a `Term`; its own contract keeps the cursor invariant. The layout facts are `Screens.Line2Layout` |
| Screens.Line3Screen | m4demos/src/bin/hires_text.rs:596-652 | `screen_line3`'s colour assignments and cursor calls in order on a `Term`; its own contract keeps the cursor invariant. The layout facts are `Screens.Line3Layout` |
| Screens.ThanksScreen | m4demos/src/bin/hires_text.rs:654-681 | `screen_thanks`'s colour assignments and cursor calls in order on a `Term`; its own contract keeps the cursor invariant. The layout facts are `Screens.ThanksLayout` |
| Screens.Paint | m4demos/src/bin/hires_text.rs:366-681 | the screen procedure named by a `Screen`; its own contract keeps the cursor invariant. Its facts for every screen are `PaintLayout`, `PaintIndependent` and `PaintTwice` |
| Screens.ErrorLayout | m4demos/src/bin/hires_text.rs:366-381 | `screen_error` never panics (every `goto` is in range, every write is on the grid). Its grid does not depend on the starting grid or cursor. Outside the title bar every cell is a space, white on blue |
| Screens.StartLayout | m4demos/src/bin/hires_text.rs:383-404 | `screen_start` never panics and its grid does not depend on the starting grid or cursor. Outside the message box (rows 16-20, columns 35-45) every cell is a space, white on dark grey |
| Screens.PayingLayout | m4demos/src/bin/hires_text.rs:406-431 | the same three facts for `screen_paying`: no panic, grid independent of the start, blank outside the title bar and message box |
| Screens.ConfirmLayout | m4demos/src/bin/hires_text.rs:433-478 | the same three facts for `screen_confirm`, whose boxes are the title, the message and the YES and NO buttons |
| Screens.Line1Layout | m4demos/src/bin/hires_text.rs:480-536 | the same three facts for `screen_line1`, whose boxes are the title, the message and the four ticket and navigation buttons |
| Screens.Line2Layout | m4demos/src/bin/hires_text.rs:538-594 | the same three facts for `screen_line2` |
| Screens.Line3Layout | m4demos/src/bin/hires_text.rs:596-652 | the same three facts for `screen_line3` |
| Screens.ThanksLayout | m4demos/src/bin/hires_text.rs:654-681 | the same three facts for `screen_thanks` |
| Screens.PaintLayout | m4demos/src/bin/hires_text.rs:366-681 | for every screen: it never panics, its result equals that screen drawn from a freshly cleared grid, and the grid is blank in the clearing colours outside its boxes |
| Screens.PaintIndependent | m4demos/src/bin/hires_text.rs:366-681 | any screen drawn from two different starting states gives the same grid, cursor and colours |
| Screens.PaintTwice | m4demos/src/bin/hires_text.rs:366-681 | drawing a screen a second time changes nothing |
| ScreenProcs.ScreenError | m4demos/src/bin/hires_text.rs:366-381 | the method's colour assignments, `clear`, `goto` and `puts` calls leave the cursor in exactly the state `Screens.ErrorScreen` computes |
| ScreenProcs.ScreenStart | m4demos/src/bin/hires_text.rs:383-404 | as above, against `Screens.StartScreen` |
| ScreenProcs.ScreenPaying | m4demos/src/bin/hires_text.rs:406-431 | as above, against `Screens.PayingScreen` |
| ScreenProcs.ScreenConfirm | m4demos/src/bin/hires_text.rs:433-478 | as above, against `Screens.ConfirmScreen` |
| ScreenProcs.ScreenLine1 | m4demos/src/bin/hires_text.rs:480-536 | as above, against `Screens.Line1Screen` |
| ScreenProcs.ScreenLine2 | m4demos/src/bin/hires_text.rs:538-594 | as above, against `Screens.Line2Screen` |
| ScreenProcs.ScreenLine3 | m4demos/src/bin/hires_text.rs:596-652 | as above, against `Screens.Line3Screen` |
| ScreenProcs.ScreenThanks | m4demos/src/bin/hires_text.rs:654-681 | as above, against `Screens.ThanksScreen` |
| Kiosk.Code | m4demos/src/bin/hires_text.rs:189 | pin 7 shifted by 0, pin 8 by 1 and pin 9 by 2, added: the code lies in 0..7 |
| Kiosk.CodeBits | m4demos/src/bin/hires_text.rs:189 | packing loses nothing: bit 0 of the code is pin 7, bit 1 is pin 8 and bit 2 is pin 9 |
| Kiosk.CodeOnto | m4demos/src/bin/hires_text.rs:189 | every code from 0 to 7 is the packing of its own three bits, so every code can occur |
| Kiosk.Dispatch | m4demos/src/bin/hires_text.rs:199-208 | the table never selects `screen_line3`, and selects `screen_error` exactly for code 0 and for codes above 6 |
| Kiosk.DispatchEntry | m4demos/src/bin/hires_text.rs:199-208 | the table is one to one on codes 0..6; every screen except line 3 has a code, and dispatching that code gives back the screen |
| Kiosk.Binary3 | m4demos/src/bin/hires_text.rs:216 | `{:03b}` of a code gives three characters, each `'0'` or `'1'`, which read most significant digit first spell the code |
| Kiosk.BinaryValue | m4demos/src/bin/hires_text.rs:216 | every three-digit binary string is the rendering of the number it spells |
| Kiosk.OverlayBytes | m4demos/src/bin/hires_text.rs:297-301 | `write_str` passes the digits through its low-8-bit truncation unchanged, and they hold no newline |
| Kiosk.Frame | m4demos/src/bin/hires_text.rs:181-216 | one pass of the loop body on the grid: a fresh cursor, the screen the table selects when the code changed, then the digits in white on red at (35, 77); its own contract keeps the grid size. Its meaning is stated by `FrameOverlay`, `FrameSame`, `FrameChanged`, `FrameTotal`, `FrameSteady` and `FrameShows` |
| Kiosk.FrameOverlay | m4demos/src/bin/hires_text.rs:213-216 | after the screen step, the overlay writes the code's digits in white on red into the three cells from row 35, column 77 and changes nothing else |
| Kiosk.FrameSame | m4demos/src/bin/hires_text.rs:198-216 | when the code equals the previous one, no screen is drawn. Only the three cells at row 35, columns 77-79 change, and they get the code's digits in white on red |
| Kiosk.FrameChanged | m4demos/src/bin/hires_text.rs:198-216 | when the code differs, the grid afterwards is the selected screen with the overlay. It does not depend on the previous grid or the previous code |
| Kiosk.Shown | m4demos/src/bin/hires_text.rs:198-216 | the display for a code has the code's digits at the overlay cells, and every cell outside the selected screen's boxes and the overlay is blank in that screen's clearing colours |
| Kiosk.ScreenCells | m4demos/src/bin/hires_text.rs:366-681 | the grid of a screen drawn from a cleared grid is blank in the screen's clearing colours outside its boxes |
| Kiosk.DrawnCells | m4demos/src/bin/hires_text.rs:366-681 | drawing a screen from any valid cursor never panics and gives exactly the grid `ScreenCells` of that screen |
| Kiosk.FrameTotal | m4demos/src/bin/hires_text.rs:181-216 | the loop body never panics, whatever the grid, the previous code and the pins |
| Kiosk.FrameSteady | m4demos/src/bin/hires_text.rs:198-216 | a second frame with the same code leaves the grid exactly as the first one left it |
| Kiosk.FrameShows | m4demos/src/bin/hires_text.rs:198-216 | from any state the loop can be in, a frame leaves exactly the current code's screen and digits on the grid. Repainting only on change shows the same as repainting every frame |
| Kiosk.Boot | m4demos/src/bin/hires_text.rs:58-70 | the grid at start-up: `screen_error` drawn on the all-zero buffer, with a fresh cursor; its own contract keeps the grid size. `BootScreen` states that it is the screen for code 0 |
| Kiosk.BootScreen | m4demos/src/bin/hires_text.rs:68-70 | the grid drawn at start-up is the screen the table gives code 0 |
| Kiosk.BootAgrees | m4demos/src/bin/hires_text.rs:68-70 | with all pins low, the first frame after start-up shows exactly what switching to code 0 from any other code and any grid shows |
| Kiosk.Startup | m4demos/src/bin/hires_text.rs:58-70 | the zeroed buffer with `screen_error` drawn on it, and the previous code 0 (line 127) |
| Kiosk.DrawScreen | m4demos/src/bin/hires_text.rs:199-208 | the `match` draws exactly the screen `Dispatch` selects for the code |
| Kiosk.LoopStep | m4demos/src/bin/hires_text.rs:181-216 | one pass of the loop body, in place on the array. It returns the packed code, which becomes `s0`, and leaves the array as `Frame` computes from the old array, the old code and the new code |
| Kiosk.ShowStep | m4demos/src/bin/hires_text.rs:181-216 | from a state the loop can be in, one pass leaves the array showing exactly the new code's screen and digits |
| Kiosk.RunFrames | m4demos/src/bin/hires_text.rs:177-216 | start-up followed by one pass per pin reading. The loop keeps the grid in a state the loop can be in, and afterwards the grid shows the screen and digits of the last reading |

## Left out

- The `SpinLock` around the text buffer, `try_lock().unwrap()`/`expect`, and `sync_to_vblank` are left out. So is the timing between the raster interrupt and the main loop. The buffer is treated as owned by the one cursor that writes it.
- Hardware bring-up is left out: clock and GPIO register writes, `m4vga::init`, `configure_timing`, `video_on`, and the `PendSV`/`TIM3`/`TIM4` handlers. The three `idr` bit reads are the three fields of a `Pins` value given to the loop step.
- The raster callback (`text_10x16::unpack`, `solid_color_fill`) is left out: it calls rasterizer code that is not part of this model.
- `AChar` is a plain record of byte, foreground and background. Its bit packing, and any truncation of colours inside `from_ascii_char`/`with_foreground`/`with_background`, are not part of this model. The initial cell `AChar::from_ascii_char(0)` is taken to be byte 0 with colours 0.
- `Kiosk.Binary3`: the `core::fmt` machinery behind `write!(&mut c, "{:03b}", s)` is replaced by the three-digit string it produces for a code below 8. `core::fmt` sends the zero padding and the digits as several writes; the model writes them with a single `write_str`, which is sound because `CursorSpec.PutSAppend` proves that writing a concatenation equals writing its parts in turn. The `fmt::Result` (always `Ok` here) is discarded, as in the source.
- The endless `loop` is modelled by `Kiosk.RunFrames` over a finite sequence of pin readings. Every pass is `Kiosk.LoopStep`.
- Commented-out code (the start-up demo text, the frame counter, the change-marker `*`) is dead and is not modelled.
- The `u8` arithmetic of the code packing never overflows (the code is at most 7), so the code is an unbounded natural number.
