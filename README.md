# Classy analog watch face — Dafny model

This project models the logic of the Classy watch face for Pebble watches
(`src/c/classy.c`). The face draws an hour hand, a minute hand and a thin
second hand over a background picture. It also shows the day of the week in
French ("dim" … "sam") and the day of the month. The model covers four parts:

- **Hand angles** (module `Angles`). Each hand's angle is an integer fraction
  of the drawing layer's full turn (TRIG_MAX_ANGLE, `0x10000` on the
  platform). The functions take the full turn as a parameter `turn > 0`, so
  the lemmas hold for any resolution. The 32-bit overflow lemma uses the
  platform value.
- **Texts** (module `Format`). The weekday comes from a 7-entry table and is
  written with `snprintf` into a 4-byte buffer. The date is strftime's `%d`
  written into a 3-byte buffer. The C library calls are modelled by what they
  leave in the buffer.
- **Tick redraw policy** (class `Face.WatchFace`, method `Tick`). The tick
  handler marks the hand layers dirty and refreshes the texts at second 0.
- **Tick subscription** (`Init`, `Deinit`). The face subscribes at start-up
  and unsubscribes at shut-down.

The compile-time switch `DISPLAY_SECONDS` is the class's `displaySeconds`
field. The repository builds with `true`, and the model covers both settings.
`Calendar.Tm` stands for the `struct tm` fields the face reads. Its `Valid()`
gives the ranges `localtime` produces. All operands of the angle expressions
are therefore non-negative, and C's truncating `/` agrees with Dafny's `/`.

Notes on what the code does:

- The code marks the minute layer dirty on every tick, not only at second 0.
- The code has no settings store, no persisted settings, no colour inversion
  and no re-subscription at run time. The companion settings page defines
  "SecondTick" and "InvertColors" toggles, but the C code never reads them.
- The code does not reduce the hour angle to one turn. From 12:00 on, the
  angle lies in the second turn (`HourAngle` ensures, `HourAnglePm`).

## Model

| member | source | states |
|---|---|---|
| `Angles.SecondAngle` | src/c/classy.c:66 | The second hand's angle lies in `[0, turn)` and is 0 at second 0. |
| `Angles.MinuteAngle` | src/c/classy.c:97 | The minute hand's angle lies in `[0, turn)` and is 0 at minute 0. |
| `Angles.HourAngle` | src/c/classy.c:108 | The hour hand's angle lies in `[0, 2*turn)`. It is below one turn exactly for the morning hours 0..11, and it is 0 at midnight. |
| `Angles.SecondAngleMonotone` | src/c/classy.c:66 | The second hand never moves backwards within a minute. |
| `Angles.SecondAngleAdvances` | src/c/classy.c:66 | With at least 60 units per turn, the second hand moves forward on every second. |
| `Angles.MinuteAngleMonotone` | src/c/classy.c:97 | The minute hand never moves backwards within an hour. |
| `Angles.MinuteAngleAdvances` | src/c/classy.c:97 | With at least 60 units per turn, the minute hand moves forward on every minute. |
| `Angles.HourAngleMonotone` | src/c/classy.c:108 | The hour angle is non-decreasing in the minutes of the day, so 2:59 is never ahead of 3:00. |
| `Angles.HourAngleStep` | src/c/classy.c:108 | From one minute to the next, including across the hour, the hour hand advances by `turn/720` or `turn/720 + 1` units. |
| `Angles.HourAnglePm` | src/c/classy.c:108 | Hour `h+12` is drawn exactly one full turn past hour `h`, so AM and PM positions agree modulo a turn. |
| `Angles.AngleProductsFitInt32` | src/c/classy.c:66-108 | With TRIG_MAX_ANGLE = 0x10000 and in-range fields, every product and every angle fits in `int32_t`. |
| `Format.SnprintfString` | src/c/classy.c:38 | Defines what `snprintf` with `%s` leaves in the buffer: the source string cut to fit with its terminator, the whole string when it fits. |
| `Format.StrftimeFit` | src/c/classy.c:47 | Defines what `strftime` leaves in the buffer: the formatted text when it fits with its terminator, no defined text otherwise. |
| `Format.WeekdayText` | src/c/classy.c:33-40 | The weekday text is the table entry for `tm_wday`, uncut: 3 characters that fit the 4-byte buffer. |
| `Format.WeekdayNames` | src/c/classy.c:37 | Day 0 is "dim", day 6 is "sam", and the seven names are distinct. |
| `Format.DateText` | src/c/classy.c:43-49 | For days 1..31 the date text is two decimal digits that fit the 3-byte buffer and read back as the day. |
| `Format.PaddedDayValue` | src/c/classy.c:47 | The zero-padded `%d` digits read back as the day of the month. |
| `Format.DateTextPadded` | src/c/classy.c:47 | Days 1..9 are shown with a leading zero ("05" for day 5). |
| `Format.DateTextInjective` | src/c/classy.c:47 | Distinct days of the month give distinct date texts. |
| `Face.HandLayers` | src/c/classy.c:180-193 | Defines the hand layers the face has: minute and hour always, second only with DISPLAY_SECONDS. |
| `Face.MarkedOnTick` | src/c/classy.c:116-129 | A tick marks the second layer iff DISPLAY_SECONDS, always marks the minute layer, and marks the hour layer iff `tm_sec == 0`. It marks only layers the face has. |
| `Face.MinuteBoundaryMarksAll` | src/c/classy.c:116-129 | A tick at second 0, such as every per-minute tick, marks every hand layer of the face. |
| `Face.TickUnit` | src/c/classy.c:225 | Defines the subscription granularity: per second iff DISPLAY_SECONDS. |
| `Face.WatchFace.constructor` | src/c/classy.c:34-44 | Before start-up nothing is marked, the text buffers are empty and there is no subscription. |
| `Face.WatchFace.Init` | src/c/classy.c:220-226 | After `init` exactly one subscription is active, per second iff DISPLAY_SECONDS. Nothing else changes. The face invariant is kept. |
| `Face.WatchFace.Deinit` | src/c/classy.c:229-232 | After `deinit` no subscription is active. Nothing else changes. The face invariant is kept. |
| `Face.WatchFace.Tick` | src/c/classy.c:116-129 | Runs only while subscribed. The dirty set grows by exactly the layers `MarkedOnTick` gives. The weekday and date texts are rewritten from the clock iff `tm_sec == 0` and otherwise unchanged. Path rotations and the subscription are untouched, and the face invariant is kept. |
| `Face.WatchFace.UpdateWeekday` | src/c/classy.c:33-40 | The weekday layer shows the table entry for the clock's weekday. Nothing else changes. |
| `Face.WatchFace.UpdateDate` | src/c/classy.c:43-49 | The date layer shows the two-digit day of the clock. Nothing else changes. |
| `Face.WatchFace.SecondLayerUpdate` | src/c/classy.c:63-77 | The second hand is drawn at `SecondAngle` of the clock's seconds, inside one turn. |
| `Face.WatchFace.MinuteLayerUpdate` | src/c/classy.c:94-102 | The minute path is rotated to `MinuteAngle` of the clock's minutes. Nothing else changes. |
| `Face.WatchFace.HourLayerUpdate` | src/c/classy.c:105-113 | The hour path is rotated to `HourAngle` of the clock's hour and minute. Nothing else changes. |

## Left out

- Hand end points and drawing: the `sin_lookup`/`cos_lookup` end point of the second hand, `gpath_draw_filled`, line and circle drawing, and `center_layer_update`. These are platform trigonometry and rasterisation. The model keeps only the angles and the path rotations.
- `window_load` and `window_unload`: bitmap, font, layer and path creation and destruction against the platform UI. The model's `HandLayers` records which hand layers `window_load` creates. The first `update_weekday`/`update_date` calls in `window_load` are the same operations as `UpdateWeekday`/`UpdateDate`.
- The platform's redraw pass, which runs the update procedure of each dirty layer and clears its mark, is not source code. The model therefore never clears a dirty mark.
- Start-up text: in the source, `init`'s `window_stack_push` runs `window_load`, which fills both texts (src/c/classy.c:152, 160). The model's `Init` does not run `window_load`, so after it the texts stay empty until the first tick at second 0.
- `time(NULL)`, `localtime` and `clock_is_24h_style` are platform clock I/O. The `tm` fields are parameters: `t` is what the tick reports, and `clock` is what the text and layer updates read for themselves.
- The `DISPLAY_TIME` branch (`update_time_text` and its layer) is compiled out.
- `window_create`, `window_stack_push`, `window_destroy` and `app_event_loop` in `init`/`deinit`/`main` are platform window and event-loop calls.
- `src/pkjs/config.js` and `src/pkjs/index.js` are a declarative settings page and a library wrapper. Their toggles never reach the C code.
