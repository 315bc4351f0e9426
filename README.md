# card10 watch face: a Dafny model

This project models the core of the card10 badge's watch application
(`watch/__init__.py`). It covers four parts:

- **The grid seven-segment font.** `ceil_div`, `tip_height`, `draw_tip`,
  `draw_seg`, `draw_Vseg`/`draw_Hseg`, the grid variants, `draw_grid_7seg`,
  `DIGITS`, `render_num` and `render_colon`. The display is a `Canvas`
  object whose log of `pixel`/`rect` calls grows as the drawing routines run.
  Each routine is a method proved against a function that lists the calls it
  makes (modules `Framebuffer`, `Segment`, `Glyph`).
- **The adaptive backlight controller** `ctrl_backlight`. It is a three-state
  machine (viewing, not viewing, timed out) over the newest orientation
  sample, the ambient light reading and the clock. The globals it keeps
  become the `Controller` class, and one call is the pure function
  `Backlight.Next`/`Call` (module `Backlight`).
- **The button poller** `check_buttons`. It reports short and long releases
  of the three buttons as a bit set. The globals are the `ButtonPoller`
  class, and one poll is the function `Buttons.Poll` (module `Buttons`).
- **The settings state machine.** This is `MODE`, `ctrl_display`,
  `ctrl_chg_*`, `CTRL_FNS` and `modTime`. The mode and the clock adjustments
  requested so far are the `Controls` class (module `Settings`).

Python's `//` is modelled by `Util.FloorDiv`, which rounds toward minus
infinity. Python's `%` is only used with a positive divisor, where it agrees
with Dafny's. Orientation angles are reals; the light level, the sample status
and the clock (in whole seconds) are integers.

On the call that leaves the viewing state, the backlight still gets the
ambient-light level: it is set before the transition is tested, and only the
next call turns it off.

## Model

| member | source | states |
|---|---|---|
| Util.FloorDiv | watch/__init__.py:26-27 | `a // b`: the quotient rounded toward minus infinity, for either sign of the divisor |
| Segment.CeilDiv | watch/__init__.py:26-27 | `ceil_div(a, b)` for `b > 0` is the least `r` with `a <= r * b` |
| Segment.TipHeight | watch/__init__.py:30-31 | `tip_height(w)` is the largest `h` with `2h <= w - 1`, and is non-negative for `w >= 1` |
| Segment.TipHeightMonotone | watch/__init__.py:30-31 | a wider bar never has a shorter tip |
| Segment.DrawTip | watch/__init__.py:34-42 | the two nested loops append exactly the pixel calls of `TipOps`, row by row |
| Segment.TipSize | watch/__init__.py:34-42 | a tip of width `w >= 1` has `h * (w - 1 - h)` pixels, where `h` is the tip height |
| Segment.TipOpsExact | watch/__init__.py:34-42 | without axis exchange, a call is in the tip if and only if it is a pixel of colour `c` at an offset inside the tip's trapezoid, with rows counted upward when inverted |
| Segment.TipOpsTransposed | watch/__init__.py:34-42 | exchanging the axes transposes every pixel of the tip and keeps the order |
| Segment.TipOpsTranslated | watch/__init__.py:34-42 | moving the origin moves every pixel of the tip by the same amount |
| Segment.DrawSeg | watch/__init__.py:45-57 | appends the inverted start tip, the body rectangle and the end tip, in that order |
| Segment.SegOpsTransposed | watch/__init__.py:45-57 | a bar drawn with the axes exchanged is the exact transpose of the bar drawn without |
| Segment.SegOpsTranslated | watch/__init__.py:45-57 | a bar at a moved origin is the same bar moved |
| Segment.SegExtent | watch/__init__.py:45-57 | a vertical bar with room for both tips stays inside its `w` columns and `h` rows, and draws on every one of those rows |
| Segment.DrawVSeg | watch/__init__.py:60-61 | `draw_Vseg` is the vertical bar |
| Segment.DrawHSeg | watch/__init__.py:64-65 | `draw_Hseg` is the transpose of the vertical bar with row and column exchanged |
| Glyph.DrawGridSeg | watch/__init__.py:68-75 | `draw_grid_seg` draws the bar of width `w - 2` at pixel column `x * w + 1`, starting `tip_height(w - 2) + 3` rows below `y * w`, with length `(l - 1) * w - 3` |
| Glyph.GridVSegExtent | watch/__init__.py:68-79 | a vertical grid bar lies in the inner `w - 2` columns of its cell column and covers every row of its length |
| Glyph.GridSegTranslated | watch/__init__.py:68-75 | moving a grid bar by whole cells moves every call by whole cells of pixels |
| Glyph.DrawGridVSeg | watch/__init__.py:78-79 | `draw_grid_Vseg` is the vertical grid bar |
| Glyph.DrawGridHSeg | watch/__init__.py:82-83 | `draw_grid_Hseg` is that bar's horizontal counterpart |
| Glyph.GridHSegTransposed | watch/__init__.py:82-83 | a horizontal grid bar is the exact transpose of the vertical grid bar with the cell coordinates exchanged |
| Glyph.DrawGrid7Seg | watch/__init__.py:93-107 | the seven flag tests append segment `i` exactly when `segs[i]` holds, in index order (each test is one call of the helper `DrawPart`) |
| Glyph.Glyph7DrawsActive | watch/__init__.py:93-107 | a glyph's calls are exactly those of its active segments, in increasing index order |
| Glyph.ActiveSegmentsMembers | watch/__init__.py:93-107 | a segment is active if and only if its flag is set, and active segments are listed in strictly increasing order |
| Glyph.SegmentTranslated | watch/__init__.py:93-107 | each of the seven segment positions moves rigidly with the glyph's cell origin |
| Glyph.Glyph7Translated | watch/__init__.py:93-107 | a glyph drawn `(a, b)` cells further on is the same glyph moved by `(a * w, b * w)` pixels |
| Glyph.SegmentParts | watch/__init__.py:68-107 | at 7-pixel cells, every call of segment `i` lies in that segment's body box or one of its two tip boxes (`SegmentBoxes`) |
| Glyph.SegmentsApart | watch/__init__.py:68-107 | at 7-pixel cells, as `render_num` uses them, no pixel is reached by calls of two different segments of one glyph |
| Glyph.DigitCode | watch/__init__.py:110-121 | each `DIGITS` row has seven flags and is the standard seven-segment code of its digit (0x3F, 0x06, …, 0x6F) |
| Glyph.DigitsDistinct | watch/__init__.py:110-121 | no two digits share a segment pattern |
| Glyph.EightSegments | watch/__init__.py:110-121 | digit 8 lights all seven segments |
| Glyph.OneSegments | watch/__init__.py:110-121 | digit 1 lights only the two right-hand segments |
| Glyph.ZeroSegments | watch/__init__.py:110-121 | digit 0 lights every segment but the middle one |
| Glyph.SplitDigits | watch/__init__.py:184-186 | `num // 10` and `num % 10` of a number in 0..99 are its two decimal digits |
| Glyph.RenderNum | watch/__init__.py:184-186 | draws the tens digit's glyph at cell column `x`, then the ones digit's glyph 35 pixels to the right, in white with 7-pixel cells (the two calls sit in the helper `DrawDigitPair`) |
| Glyph.RenderColon | watch/__init__.py:189-191 | draws one colon dot, then the same dot 14 pixels lower |
| Glyph.ColonDotShape | watch/__init__.py:189-191 | a colon dot is two 2-row tips of width 5 with an empty body between them |
| Backlight.Brightness | watch/__init__.py:404-406 | the viewing level is 1 below light 4, 100 above light 300, and `light // 4` in between |
| Backlight.BrightnessMonotone | watch/__init__.py:404-406 | more ambient light never gives a dimmer display |
| Backlight.ConeHysteresis | watch/__init__.py:413-424 | the leave-the-cone and enter-the-cone tests never both hold, and neither holds exactly on the cone's edge |
| Backlight.NextLevel | watch/__init__.py:386-435 | a call that sees a sample lights the display, at a level in 1..100, if and only if it starts in the viewing state; otherwise the level is 0 |
| Backlight.NextFromViewing | watch/__init__.py:402-414 | from viewing: timeout if and only if more than `VIEW_TIMEOUT` seconds have passed, recording the pitch; else not viewing if and only if the sample is reliable and outside the cone; else nothing changes |
| Backlight.NextFromNotViewing | watch/__init__.py:415-426 | from not viewing: back to viewing, with the event starting now, if and only if the sample is unreliable or strictly inside the cone; else nothing changes |
| Backlight.NextFromTimeout | watch/__init__.py:427-435 | from timeout: viewing if and only if the pitch moved by more than `MOVEMENT_THRESHOLD` since the last sample; the pitch is recorded either way; never not-viewing |
| Backlight.TimeoutRecordsPitch | watch/__init__.py:409-435 | whenever a call ends timed out, the recorded pitch is that call's sample's |
| Backlight.ViewingBounded | watch/__init__.py:402-414 | through a run that stays in the viewing state, the event keeps its start, and no call with a sample comes more than `VIEW_TIMEOUT` seconds after it |
| Backlight.SlowDriftStaysDark | watch/__init__.py:427-435 | a timed-out display that only sees pitch changes within the threshold between consecutive samples stays timed out, however far the pitch drifts in total |
| Backlight.DriftExample | watch/__init__.py:427-435 | three 2-degree steps leave the display timed out 6 degrees from where the timeout began |
| Backlight.Controller.constructor | watch/__init__.py:21-23 | at module load the state is viewing, the event starts at load time, and the pitch is 0 |
| Backlight.Controller.Step | watch/__init__.py:386-435 | one call changes the globals and sets the backlight as `Call` says: nothing without a sample, otherwise the newest sample decides |
| Buttons.PollEvents | watch/__init__.py:266-298 | a button's bits are reported exactly on its release, never both short and long, no bits above the six event bits, and the reading becomes the previous one |
| Buttons.PollLong | watch/__init__.py:273-297 | a release is long exactly when the shared timer, as the presses handled earlier in the same poll left it, lies before `t`, and short otherwise |
| Buttons.PollNoChange | watch/__init__.py:266-298 | a poll that sees the same buttons as the last one reports nothing and changes nothing |
| Buttons.PollSharedTimer | watch/__init__.py:266-298 | the single timer moves to `t` when any button goes down, and stays otherwise |
| Buttons.SharedTimerCounterexample | watch/__init__.py:266-298 | a bottom-left button held for four seconds is reported short when another button went down in the second of its release |
| Buttons.SeparateTimersLong | watch/__init__.py:260-263 | with one timer per button, each release is long exactly when that button's own press lies in an earlier second |
| Buttons.SeparateTimersScenario | watch/__init__.py:260-263 | with one timer per button, the counterexample's release is reported long |
| Buttons.ButtonPoller.constructor | watch/__init__.py:260-263 | at module load no button is held and all three timers are 0 |
| Buttons.ButtonPoller.Check | watch/__init__.py:266-298 | `check_buttons` as written changes the previous reading and `button_sel_time`, and returns the events, as `Poll` says; `button_up_time` and `button_down_time` never change |
| Buttons.ButtonPoller.CheckSeparate | watch/__init__.py:260-298 | the corrected poll changes the globals and returns the events as `PollSeparate` says, each button on its own timer |
| Settings.DisplayMode | watch/__init__.py:308-311 | in the display mode a long select press, and nothing else, enters the hours setting; no adjustment is requested |
| Settings.ChangeMode | watch/__init__.py:314-383 | in a change mode the next field is chosen if and only if there is a short select; the display is restored if and only if there is a long select and no short one; otherwise the mode stays |
| Settings.SuccessorMoves | watch/__init__.py:314-383 | a short select always leaves the current field and never returns to the display |
| Settings.SelectCycle | watch/__init__.py:314-383 | short selects visit hours, minutes, seconds, year, month and day, and six of them return to the starting field |
| Settings.LongSelectReturns | watch/__init__.py:266-383 | since a poll never reports both select bits, a long select release from a change mode always returns to the display |
| Settings.LongSelectReturnsSeparate | watch/__init__.py:266-383 | the same holds for the corrected poll with a timer per button |
| Settings.MovesNet | watch/__init__.py:314-383 | one call requests one `modTime` per up or down release, and they add up to moving only the mode's field by ups minus downs |
| Settings.RunKeepsMode | watch/__init__.py:458-466 | while no select event arrives, a change mode stays |
| Settings.RunTotal | watch/__init__.py:458-466 | while no select event arrives, the adjustments of a whole run add up to moving the mode's field by the up releases minus the down releases |
| Settings.Controls.constructor | watch/__init__.py:447 | at module load the mode is the display and no adjustment has been made |
| Settings.Controls.ModTime | watch/__init__.py:301-305 | `modTime` records one adjustment and leaves the mode |
| Settings.Controls.CtrlDisplay | watch/__init__.py:308-311 | `ctrl_display` enters the hours setting on a long select, and requests no adjustment |
| Settings.Controls.CtrlChange | watch/__init__.py:314-383 | `ctrl_chg_*` for the field `own`: the mode after the select tests, and the adjustments for up and down releases, in order |
| Settings.Controls.Control | watch/__init__.py:458-466 | `CTRL_FNS[MODE](bs)` moves to `NextMode` and appends `Requests` |

## Left out

- The drivers are not modelled: the display, the BHI160 orientation sensor, the light sensor, `buttons.read` and `utime`. Their readings are parameters: the samples, the light level, the pressed buttons and the current second.
- The buttons are `Pressed(sel, up, down)` flags. The driver's bit values for `BOTTOM_LEFT`, `TOP_RIGHT` and `BOTTOM_RIGHT` are not part of this model.
- `modTime`'s calendar arithmetic (`localtime`, `mktime`, `set_time`) is not modelled. Each call is recorded as an `Adjustment` of the six fields.
- These parts of the file are display plumbing outside the core: `render`, `render_every_second`, `render_text`, `render_bar`, `render_battery`, `render_charging`, `get_bat_color`, `draw_grid`, the `MODES` labels and the month and day strings.
- `main`'s endless loop is not modelled as a loop. Its steps are `ButtonPoller.Check`, `Controls.Control` and `Controller.Step`, and runs are the sequences in `RunTotal` and `ViewingBounded`.
- Floating point is not modelled. Orientation angles are exact reals, so rounding near the cone's edges is not captured.
- The display driver's `rect` is read with both corners included, as the `w - 1` and `body_h - 1` arithmetic of watch/__init__.py:51-52 implies. `SegExtent`, `SegmentsApart` and `ColonDotShape` depend on that reading, and the driver itself is not part of this model.
- `rect` is always the driver's default filled rectangle; the `filled` flag is not modelled.
- Glyph.RenderNum: requires `0 <= num <= 99`, as every caller passes. Python's negative indexing and the `IndexError` for larger numbers are not modelled.
- Buttons.ButtonPoller.Check models the code as written, with one shared timer. The correction under Findings is the separate method `CheckSeparate`, and `Check` is left unchanged.

## Findings

| source | as written | input that shows it | evidently intended | confidence | as-written member | corrected member |
|---|---|---|---|---|---|---|
| watch/__init__.py:266-298 | every button's press stores its time in `button_sel_time`, and every release is measured against it | bottom-left held since second 0; at second 4 the top-right button goes down, and the bottom-left button is released in that same second: the release is reported short (`BUTTON_SEL`) | each button measured against its own press time, as the declared and unused `button_up_time` and `button_down_time` suggest: the release is long | not executed | Buttons.SharedTimerCounterexample | Buttons.SeparateTimersLong |
