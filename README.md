# tty-clock in Dafny

A model of tty-clock: a single-file ncurses program that shows the local time as large
digits inside a line-drawn frame, with the date below it. Three things make up the model:

- the big-digit table;
- the arithmetic that turns a broken-down time into digits and a meridiem label;
- the global state (`option`, `geo`, `running`, `sdate`, `meridiem`) and the functions
  that update it in place: `check_key`, `set_center`, `handle_sig`, `get_time`,
  `arrange_clock`, `run`, and the option loop and main loop of `main`.

Modules:

- `Glyphs` (`glyphs.dfy`): the `number` table, 10 digits of 30 colour-pair flags each.
  Flag i of a digit is drawn at row `i / 6` and column `i % 6` of its block, so a block is
  5 rows tall and 6 columns wide. `Flag` reads an entry by walking down the rows, and
  `FlagIsEntry` proves that it is `number[num][i]`.
- `TimeSample` (`time_sample.dfy`): `get_time`'s arithmetic as pure functions on a
  `struct tm` value:
  - the twelve-hour conversion;
  - splitting values into tens and units;
  - the month and year offsets;
  - the meridiem label.
- `Geometry` (`geometry.dfy`): the interactive state as a value. Keys, signals and
  command-line options are transitions on it.
- `Frame` (`frame.dfy`): one frame as the ordered log of cells that `print_number` and
  `arrange_clock` draw. The screen it leaves is the last mark written at each position
  (`Shown`). `FramePicture` proves that this screen, on any 5-row frame of non-negative width, is exactly the intended picture
  (`Picture`), a definition written independently of the drawing order:
  - the border with its corners;
  - each digit's bitmap in its block;
  - the colons;
  - the date anchor.
- `TtyClock` (`clock.dfy`): `class Clock` holds the globals. Its methods mirror the C
  functions, update the fields in place, and are proved against the functions above. The
  one exception is `-s`: `ApplyOption` and `ParseOptions` apply it in its corrected form
  (see Findings). The as-written form is `Geometry.ApplyOptionAsWritten`.

Layout conventions:

- As in the C code, `geo.x` is a row and `geo.y` a column.
- The terminal size (`MAXW`, `MAXH`), the key `getch` returns, the local time and the
  signals that arrive are all inputs.

Digit-block orientation: `print_number` (clock.c:165-171) advances the column for each
flag and moves to the next row after six. A block is therefore 5 rows by 6 columns, read
row by row.

Twelve-hour mode labels noon "(AM)", because the test is `hour > 12`. The model keeps
this behaviour. `TwelveHourAmbiguity` proves that midnight and noon are the only two raw
hours that show the same hour and label.

## Model

| member | source | states |
|---|---|---|
| Glyphs.TableShape | clock.c:69-81 | the table has ten rows of thirty flags |
| Glyphs.Flag | clock.c:69-81 | every flag of the table selects one of the two colour pairs, 0 or 1 |
| Glyphs.FlagIsEntry | clock.c:173 | the flag `print_number` colours cell i of digit num with is `number[num][i]` |
| Glyphs.GlyphsDistinct | clock.c:69-81 | any two different digits differ in at least one flag, so every digit is distinguishable on screen |
| TimeSample.Meridiem | clock.c:328-331 | in twelve-hour mode the label is "(PM)" exactly past 12 h and "(AM)" otherwise (noon included); in 24-hour mode it is a single space |
| TimeSample.Split | clock.c:336-340 | `n / 10` and `n % 10` of a value below 100 are two decimal digits whose value is n |
| TimeSample.DisplayHour | clock.c:333-334 | in twelve-hour mode the shown hour is in 1..12 and equals the raw hour modulo 12; in 24-hour mode it is the raw hour |
| TimeSample.Sample | clock.c:333-350 | hour and minute pairs show the display hour and the minute; day as given, month + 1, year + 1900; seconds rewritten only when shown, otherwise kept from the previous sample |
| TimeSample.SampleDrawable | clock.c:336-350 | every sample keeps all digit pairs drawable (stale seconds included) and the month in 1..12 |
| TimeSample.TwelveHourAmbiguity | clock.c:328-334 | two raw hours a < b give the same shown hour and label if and only if they are 0 and 12 |
| TimeSample.NoonShowsAm | clock.c:328-334 | noon shows "12 (AM)", midnight "12 (AM)", 13 h shows "1 (PM)" |
| Geometry.Half | clock.c:359-360 | C's `/ 2` truncates toward zero: remainder 0 or 1 for non-negative, 0 or -1 for negative operands |
| Geometry.SetCenter | clock.c:355-365 | `set_center` flips only the centring option, keeps the run flag and the frame's size |
| Geometry.CenteredOrigin | clock.c:359-360 | centring keeps the frame size and leaves margins on both sides that differ by at most one cell |
| Geometry.SetCenterAsymmetric | clock.c:355-365 | from uncentred, `set_center` centres the origin and sets the flag; from centred it only clears the flag; two calls leave the centred origin with centring off |
| Geometry.Move | clock.c:247-286 | an arrow key changes only the origin, by at most one cell along one axis, and keeps the frame's size |
| Geometry.MoveClamped | clock.c:247-286 | each arrow key changes one coordinate by one within the clamps (up/left stop at 1, down at `x + height + 2 < MAXH`, right at `y + width + 1 < MAXW`), changes nothing else, and a centred frame never moves |
| Geometry.MoveKeepsOnScreen | clock.c:247-286 | a frame that fits in the terminal still fits after any move, and a refused move means the frame touches that edge |
| Geometry.KeyStep | clock.c:240-316 | `check_key` does nothing when the keyboard is inactive; no key changes the keyboard flag, sets the run flag or changes the frame's height |
| Geometry.KeyLocked | clock.c:242-243 | with the keyboard inactive no key changes the state |
| Geometry.UnknownKeyIgnored | clock.c:245-315 | a key outside the case labels changes nothing |
| Geometry.CaseInsensitive | clock.c:245-315 | an upper-case letter acts like its lower-case letter |
| Geometry.TwelveAndQuitKeys | clock.c:301-314 | 't'/'T' flip only the twelve-hour option; 'q'/'Q' only clear the run flag |
| Geometry.ToggleSeconds | clock.c:287-300 | 's' flips only the seconds option, keeps the run flag and the height, and keeps a proportioned frame proportioned |
| Geometry.ToggleSecondsRoundTrip | clock.c:287-300 | 's' moves the width by 19 and flips only the seconds option, re-centring a centred clock; pressing it twice restores width and options (and position when uncentred) |
| Geometry.SigStep | clock.c:369-380 | `handle_sig` changes no option except centring, keeps the frame's size and never sets the run flag |
| Geometry.SigSteps | clock.c:369-380 | a sequence of signals handled in order does the same |
| Geometry.SignalEffects | clock.c:369-380 | SIGWINCH re-centres a centred clock for the new size and ignores an uncentred one; SIGINT and SIGTERM only clear the run flag |
| Geometry.RunFlagOneWay | clock.c:369-380 | no key or signal sets the run flag again; after a sequence of signals the loop runs exactly when it ran before and neither SIGINT nor SIGTERM arrived; the keyboard flag never changes |
| Geometry.StepsKeepProportioned | clock.c:287-300 | every key and every signal sequence keeps the frame 33 wide without seconds, 52 wide with them, and 5 tall |
| Geometry.CoordArg | clock.c:419-427 | a positive `-x`/`-y` argument n puts the coordinate at n + 1; any other leaves it unchanged |
| Geometry.ApplyOptionAsWritten | clock.c:404-432 | an option as `main` applies it: none changes the frame's size or the run flag, and `-s` turns seconds on without widening the frame |
| Geometry.SecondsOptionNarrowFrame | clock.c:428 | as written, `-s` gives seconds on in a 33-column frame, and a following 's' key gives a 14-column frame with seconds off |
| Geometry.OptionKeepsProportioned | clock.c:404-432 | with `-s` corrected, every option keeps the frame proportioned, and `-s` leaves seconds on |
| Geometry.OptionsKeepProportioned | clock.c:401-433 | with `-s` corrected, a whole command line keeps the frame proportioned, and a `-s` anywhere on it leaves seconds on |
| Frame.GlyphCells | clock.c:161-177 | a digit draws 30 cells, all inside its 5-by-6 block |
| Frame.PrintNumber | clock.c:161-177 | the `sy` loop draws flag i at row x + i / 6 and column y + i % 6, in flag order |
| Frame.GlyphCellAt | clock.c:165-175 | cell j of a digit is flag j at (x + j / 6, y + j % 6) |
| Frame.PrintNumberPlacement | clock.c:161-177 | no two of a digit's 30 cells share a position |
| Frame.ShownGlyph | clock.c:161-177 | a digit leaves its bitmap on its block and nothing outside it |
| Frame.ShownGlyphInside | clock.c:161-177 | inside its block, a digit shows at (r, c) the flag of row r - x and column c - y |
| Frame.ShownPair | clock.c:186-187 | a digit pair shows the tens bitmap at columns 0-5 and the units bitmap at 7-12, nothing else |
| Frame.ShownColon | clock.c:189-192 | a colon shows colour pair 1 on two cells of rows x + 1 and x + 3 and nothing else |
| Frame.PairBlankOutside | clock.c:186-187 | a digit pair shows nothing left of its first column or right of its 13th |
| Frame.HoursMinutesBands | clock.c:186-195 | hours, colon and minutes occupy disjoint bands of columns, so together they show the digit picture without seconds |
| Frame.HoursMinutesShown | clock.c:186-195 | hours, colon and minutes show exactly the digit picture without seconds |
| Frame.SecondsShown | clock.c:197-206 | the seconds colon and digits show the digit picture from column offset 34 on, and nothing left of it |
| Frame.DigitsShown | clock.c:186-206 | the digit part of a frame shows exactly the digit picture, with or without seconds |
| Frame.ShownHRun | clock.c:209-213 | the first border loop draws a horizontal line on the top and bottom rows over its column range |
| Frame.ShownVRun | clock.c:215-219 | the second border loop draws a vertical line in the left and right columns over its row range |
| Frame.ShownCorners | clock.c:221-225 | the corner calls leave the four corner characters at the four extremes |
| Frame.BorderShown | clock.c:208-225 | the border shows corners at the extremes (overwriting the lines), lines between them, nothing else |
| Frame.DrawDigits | clock.c:186-206 | the digit part of `arrange_clock` draws hours, colon, minutes and, when seconds are on, colon and seconds |
| Frame.DrawBorder | clock.c:208-225 | the border part draws both line loops, then the four corners |
| Frame.DrawFrame | clock.c:186-235 | `arrange_clock`'s drawing on its inputs: digits, border, then the date line at column offset 21 with seconds and 12 without, one row below the frame |
| Frame.FramePicture | clock.c:182-236 | on any 5-row frame of non-negative width (every width the program reaches: 14, 33 and 52, the too-narrow ones `-s` leads to included), the screen one frame leaves is at every position exactly the intended picture: border, date anchor, each digit's bitmap, colons |
| Frame.CoordOptionsPlaceCorner | clock.c:419-427 | `-x n -y m` with positive n and m puts the frame's upper-left corner character at row n, column m, and changes nothing else |
| Frame.DigitsInsideBorder | clock.c:186-225 | on a proportioned frame every digit and colon cell lies strictly inside the border |
| Frame.SecondsOutsideNarrowFrame | clock.c:204-205 | with seconds on in a 33-column frame, the last seconds cell is drawn 17 columns beyond the right border |
| TtyClock.Passes | clock.c:438-443 | the number of loop passes over a tick sequence: at most its length, none after the first that quits, all when none quits |
| TtyClock.Step | clock.c:438-443 | one pass (`check_key`, then the signals of the pass) keeps the keyboard flag and the frame's height and never sets the run flag |
| TtyClock.StepFacts | clock.c:438-443 | one pass keeps the keyboard flag and the frame proportions, and leaves the loop running exactly when it ran and the pass did not quit |
| TtyClock.LoopFacts | clock.c:438-443 | the main loop keeps the keyboard flag and the frame proportions; it ends running exactly when it started running and no tick quits; started running, it makes `Passes` passes |
| TtyClock.Clock.constructor | clock.c:122-124 | the globals start with seconds and twelve-hour mode off, keyboard active, not centred, origin (1, 1), frame 33 by 5, running |
| TtyClock.Clock.SetCenter | clock.c:355-365 | updates the fields as `Geometry.SetCenter` |
| TtyClock.Clock.CheckKey | clock.c:240-316 | updates the fields as `Geometry.KeyStep` for the key read |
| TtyClock.Clock.HandleSig | clock.c:369-380 | updates the fields as `Geometry.SigStep` |
| TtyClock.Clock.HandleSigs | clock.c:369-380 | signals arriving during a pass, handled in order, update the fields as `Geometry.SigSteps` |
| TtyClock.Clock.GetTime | clock.c:320-351 | `sdate` becomes `Sample` of the time and the options, `meridiem` the label; all digits stay drawable |
| TtyClock.Clock.ArrangeClock | clock.c:182-236 | the cells drawn are `FrameCells` of the current geometry, digits and date |
| TtyClock.Clock.Run | clock.c:384-392 | samples the time, then draws the frame of the new sample |
| TtyClock.Clock.ApplyOption | clock.c:404-432 | applies one option as `Geometry.ApplyOption` (with `-s` corrected) and reports whether it ends the program |
| TtyClock.Clock.ParseOptions | clock.c:401-433 | ends the program exactly when some option prints and exits; otherwise the state is every option applied in order, with `-s` corrected |
| TtyClock.Clock.Pass | clock.c:438-443 | one pass is `Step`: the key, then a frame drawn with the geometry the key left and a fresh sample (`Drawn`), then the pending signals |
| TtyClock.Clock.MainLoop | clock.c:435-443 | draws one frame, then one per pass while running; ends in state `Loop` with `PassCount` + 1 frames, whose properties `LoopFacts` proves |

## Left out

- ncurses output (`initscr`, colours, `curs_set`, `clear`, `refresh`, `endwin`) is not modelled beyond the cells a frame draws. Each frame's log is modelled on its own, so what earlier frames left on screen is not. The screen (`Shown`) has no edges: terminal bounds and clipping are not modelled, neither ncurses dropping a write outside the window nor a failed `move` (clock.c:172) leaving the next `addch` (clock.c:174) at the previous cursor position, so for a frame that does not fit the terminal the real screen can differ from `Shown`.
- `start` (clock.c:133-157) is left out: its screen set-up and signal installation have no effect on the state. Signals are asynchronous in C. Here they are delivered in order after the frame of the pass in which they arrive, which is also where `handle_sig` re-runs `start` for a resize.
- The time source: `time` and `localtime` are not modelled; the broken-down time is an input. `get_time` calls `localtime` on the value `time` returned in the previous call, so each frame shows the time of the previous sample, and the first frame shows the Unix epoch, because the first call reads the zero-initialised `lt` (clock.c:129, 324). The model does not capture that lag.
- `usleep(10000)` and `halfdelay(1)` only pace the loop. The key is an input, and "no key" (ERR) is an unknown key.
- The date line's `printw` formatting is kept abstract: one `DateText` mark at the cell where the line starts. Its width, and any overlap with the border, are not modelled.
- The help, info and version texts are not modelled; only the fact that those options end the program is.
- `getopt_long`'s parsing of `argv` is not modelled: options arrive parsed, and `-x`/`-y` carry the value `atoi` reads.
- `date_t`'s fields are `unsigned int`. The wrap-around for a `tm_year` below -1900 is not modelled.
- `meridiem` starts as a null pointer in C and is only read after the first `get_time`. The model starts it as the empty string.
- The shared global loop counter `i` is not modelled: its uses never interleave.
- TtyClock.Clock.ApplyOption: applies `-s` in its corrected form, widening the frame as the 's' key does; clock.c:428 only sets the seconds flag. The as-written option is `Geometry.ApplyOptionAsWritten`, and the Findings table gives the difference.
- TtyClock.Clock.ParseOptions: folds the corrected `ApplyOption`, so after `-s` the frame is 52 columns wide where the program as written leaves it at 33.
- Geometry.CoordArg: coordinates are unbounded integers. `atoi(optarg) + 1` overflowing a 32-bit `int` at INT_MAX (clock.c:421, 426; undefined behaviour in C) is not modelled, nor are later overflows of a coordinate near INT_MAX in `geo.x + geo.height + 2` (clock.c:262), `geo.y + geo.width + 1` (clock.c:282) and the border loops (clock.c:209-219). The same holds for `TtyClock.Clock.ApplyOption`'s `-x`/`-y`.
- TtyClock.Clock.MainLoop: states the final state and the number of frames, not the content of each frame. Each frame's content is stated by `Pass` and `Run`.

## Findings

| source | as written | input that shows it | evidently intended | confidence | as-written member | corrected member |
|---|---|---|---|---|---|---|
| clock.c:428 | `-s` sets `option.second` but leaves `geo.width` at 33, unlike the 's' key (clock.c:287-300), which adds the 19 columns | `tty-clock -s`: the seconds digits are drawn up to 17 columns beyond the right border; pressing 's' then gives a 14-column frame with seconds off | `-s` widens the frame as the 's' key does, so the frame always matches the digits it holds | high; not executed | Geometry.SecondsOptionNarrowFrame | Geometry.OptionKeepsProportioned |
