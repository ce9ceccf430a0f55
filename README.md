# TeaKey stopwatch and layer cycle, modelled in Dafny

The TeaKey v1.4 keymap adds two custom keys and an OLED status screen to a QMK keyboard:

- **TIMER_KEY** drives a stopwatch. A press records the 16-bit press time. A release that
  comes more than 500 ticks after the press resets the stopwatch to a stopped zero. A
  shorter hold toggles it. Pausing freezes `elapsed_time := now - start_time`. Resuming
  backdates `start_time := now - elapsed_time`, so counting continues from the frozen value.
- **LAYER_CYCLE** moves `current_layer` to `(current_layer + 1) % 5`, calls `layer_move`
  and repaints.
- **The housekeeping tick** refreshes `elapsed_time` and repaints, but only while the
  stopwatch runs.
- **`update_display`** clears the 128x64 panel and draws the elapsed time as `HH:MM:SS`.
  Hours are taken modulo 100. It draws a ring holding a pause glyph while running and a
  play glyph otherwise. Then it draws `Layer N` with a ring and a stacked-bars icon, and
  flushes.

The model has three modules:

- `Uint` (Uint.dfy): the C fixed-width types. It covers `uint16_t` conversion and the
  wrapping differences of `uint16_t` and `uint32_t`.
- `Display` (Display.dfy): pure functions for the split of the elapsed time, the `%d` and
  `%02d` formatting, `snprintf`'s truncation to its buffer, and the repaint. The repaint
  is a sequence of abstract draw commands (`Clear`, `Text`, `Circle`, `Rect`, `Line`,
  `Flush`).
- `Stopwatch` (Stopwatch.dfy): the five globals as a `State` value, one step function per
  event, and the lemmas about them. The class `Keymap` holds the same five globals as
  mutable fields. Its methods `Press`, `Release`, `LayerPress`, `ProcessRecord` and `Tick`
  update them in place. Each method is proved to match the step function. Each also
  returns the calls it makes to the framework (`layer_move` and the repaint).

The clocks are parameters. `now16` stands for `timer_read()` and `now32` for
`timer_read32()`. `timer_elapsed(last)` is taken to be the wrapping 16-bit difference
`(timer_read() - last) mod 2^16`, as QMK defines it. That function is not part of this
model. As a consequence, a hold longer than 65,535 ticks wraps around and can be
classified as a short press.

A failed font load only skips the first repaint in `keyboard_post_init_user`. Later
repaints from the key handler and the tick still run.

A repaint after a TIMER_KEY release, or after a tick while running, draws the time the
stopwatch stands at. A repaint after a LAYER_CYCLE press draws `elapsed_time` as it is.
While the timer runs, that is the time as of the last tick.

## Model

| member | source | states |
|---|---|---|
| `Uint.Trunc16` | teakey_v1_4/keymaps/vial/keymap.c:84 | converting to `uint16_t` keeps values below 2^16 and otherwise differs by a multiple of 2^16 |
| `Uint.Sub16` | teakey_v1_4/keymaps/vial/keymap.c:84 | the `uint16_t` difference is `a - b` without a borrow and `a - b + 2^16` with one |
| `Uint.Sub32` | teakey_v1_4/keymaps/vial/keymap.c:92-96 | the `uint32_t` difference is `a - b` without a borrow and `a - b + 2^32` with one |
| `Display.Split` | teakey_v1_4/keymaps/vial/keymap.c:31-33 | hours < 100, minutes < 60, seconds < 60 for every `uint32_t` elapsed time |
| `Display.SplitReconstructs` | teakey_v1_4/keymaps/vial/keymap.c:31-33 | `h*3600000 + m*60000 + s*1000 + E%1000 == E % 360000000`: the fields are the elapsed time modulo 100 hours, cut to whole seconds |
| `Display.SplitPeriodic` | teakey_v1_4/keymaps/vial/keymap.c:31 | adding 100 hours leaves hours, minutes and seconds unchanged (hours wrap at 100) |
| `Display.Decimal` | teakey_v1_4/keymaps/vial/keymap.c:58 | `%d` text is non-empty digits, with exactly 1 digit below 10, at most 2 below 100 and at most 3 below 1000 (each an if-and-only-if) |
| `Display.DecimalRoundTrip` | teakey_v1_4/keymaps/vial/keymap.c:58 | reading the `%d` text back gives the number |
| `Display.Pad2Exact` | teakey_v1_4/keymaps/vial/keymap.c:36 | `%02d` of a value below 100 is exactly two digits that read back as the value |
| `Display.Snprintf` | teakey_v1_4/keymaps/vial/keymap.c:36 | `snprintf` keeps a prefix shorter than the buffer, and the whole text when it fits |
| `Display.TimeTextShape` | teakey_v1_4/keymaps/vial/keymap.c:35-36 | the time text is 8 characters, two digits before each of the colons at 2 and 5 and two after, and reads back as the split |
| `Display.TimeTextFitsBuffer` | teakey_v1_4/keymaps/vial/keymap.c:35-36 | the time text and its terminator fill `timer_display[9]` exactly, so nothing is truncated |
| `Display.LayerTextFitsBuffer` | teakey_v1_4/keymaps/vial/keymap.c:57-58 | `Layer %d` of any `uint8_t` fits `layer_display[10]` untruncated, reads back as the layer, and is `Layer ` plus one digit below 10 |
| `Display.RenderFrame` | teakey_v1_4/keymaps/vial/keymap.c:28-71 | a repaint clears first, flushes last, draws the full time text second, and everything in between is a primitive on the 128x64 panel |
| `Display.GlyphFollowsRunning` | teakey_v1_4/keymaps/vial/keymap.c:45-54 | pause bars are drawn if and only if the timer runs, the play triangle if and only if it does not, and no line is drawn while running |
| `Display.LayerPartIndependent` | teakey_v1_4/keymaps/vial/keymap.c:56-69 | the layer text and icon sit just before the flush and depend on the layer alone |
| `Stopwatch.PressRecordsTime` | teakey_v1_4/keymaps/vial/keymap.c:80-84 | a TIMER_KEY press changes only `timer_start`; the hold measured later is the 16-bit wrapping distance from the press |
| `Stopwatch.LongReleaseResets` | teakey_v1_4/keymaps/vial/keymap.c:84-88 | a release with hold > 500 stops the timer at elapsed 0 from any state, keeping `start_time`, `timer_start` and the layer |
| `Stopwatch.LongPressResets` | teakey_v1_4/keymaps/vial/keymap.c:80-88 | any press/release pair more than 500 ticks apart ends stopped with shown time 0 |
| `Stopwatch.ShortReleasePauses` | teakey_v1_4/keymaps/vial/keymap.c:89-93 | a short release while running stops with elapsed `now32 - start_time` mod 2^32 and keeps everything else |
| `Stopwatch.ShortReleaseResumes` | teakey_v1_4/keymaps/vial/keymap.c:94-98 | a short release while stopped runs with `start_time + elapsed == now32` mod 2^32, elapsed unchanged |
| `Stopwatch.ShortReleaseKeepsShown` | teakey_v1_4/keymaps/vial/keymap.c:89-98 | a short release flips `running` and leaves the time shown at that moment unchanged |
| `Stopwatch.ResumeCompensates` | teakey_v1_4/keymaps/vial/keymap.c:94-98 | after resuming at T2 from frozen E, a tick or a pausing press at T3 yields `E + (T3 - T2)` mod 2^32 |
| `Stopwatch.PauseResumeRoundTrip` | teakey_v1_4/keymaps/vial/keymap.c:89-98 | pause at T1, resume at T2, tick at T3 gives `(T1 - start) + (T3 - T2)`, exactly so when nothing wraps |
| `Stopwatch.TicksWhileStoppedChangeNothing` | teakey_v1_4/keymaps/vial/keymap.c:117-123 | any sequence of ticks while stopped leaves every global unchanged |
| `Stopwatch.TickWhileRunning` | teakey_v1_4/keymaps/vial/keymap.c:118-120 | a tick while running sets elapsed to `now32 - start_time` and nothing else, and a repeat at the same time is a no-op |
| `Stopwatch.TickKeepsShown` | teakey_v1_4/keymaps/vial/keymap.c:117-122 | a tick never changes the shown time, at its own moment or later |
| `Stopwatch.LayerStepNext` | teakey_v1_4/keymaps/vial/keymap.c:105-107 | a LAYER_CYCLE press goes to the next index, from 4 to 0, staying in [0, 5) |
| `Stopwatch.LayerPressesAdd` | teakey_v1_4/keymaps/vial/keymap.c:105-107 | n presses add n to the layer modulo 5 and change nothing else |
| `Stopwatch.FiveLayerPressesReturn` | teakey_v1_4/keymaps/vial/keymap.c:107 | five presses return to the starting state |
| `Stopwatch.ProcessPassesOnOnlyOtherKeys` | teakey_v1_4/keymaps/vial/keymap.c:77-114 | the handler returns true exactly for other keycodes, and for those it changes no state and calls nothing |
| `Stopwatch.LayerReleaseIgnored` | teakey_v1_4/keymaps/vial/keymap.c:105-111 | a LAYER_CYCLE release changes nothing, calls nothing and returns false |
| `Stopwatch.ProcessKeepsWellFormed` | teakey_v1_4/keymaps/vial/keymap.c:77-123 | every key event and tick keeps `timer_start` 16-bit and the layer below 5; `layer_move` always gets an index below 5 |
| `Stopwatch.StopwatchSession` | teakey_v1_4/keymaps/vial/keymap.c:80-120 | a sample session: start at T0, tick at T0+65 s shows `00:01:05`, pause at 65 s, resume 5 s later with start T0+5 s, long press stops at 0 |
| `Stopwatch.LongHoldWrapsToShort` | teakey_v1_4/keymaps/vial/keymap.c:84-98 | a release 65,636 ticks after the press measures a hold of 100 and toggles like a short press |
| `Stopwatch.ReleasePaintsShown` | teakey_v1_4/keymaps/vial/keymap.c:83-100 | the repaint after a TIMER_KEY release draws the text of the time the stopwatch stands at that moment |
| `Stopwatch.TickPaintsShown` | teakey_v1_4/keymaps/vial/keymap.c:117-121 | the repaint after a tick while running draws the text of the time the stopwatch stands at that moment |
| `Stopwatch.LayerPressPaintsLastTick` | teakey_v1_4/keymaps/vial/keymap.c:105-109 | the repaint after a LAYER_CYCLE press draws `elapsed_time`, the time as of the last tick |
| `Stopwatch.LayerPressCanLagShown` | teakey_v1_4/keymaps/vial/keymap.c:105-109 | a LAYER_CYCLE press 5 s after the start with no tick between paints `00:00:00` while the stopwatch stands at 5000 |
| `Stopwatch.Keymap.constructor` | teakey_v1_4/keymaps/vial/keymap.c:19-23 | the globals start stopped with every value zero |
| `Stopwatch.Keymap.Press` | teakey_v1_4/keymaps/vial/keymap.c:80-82 | updating the fields in place gives the press step of the old globals |
| `Stopwatch.Keymap.Release` | teakey_v1_4/keymaps/vial/keymap.c:83-101 | updating the fields in place gives the release step, then repaints the new globals |
| `Stopwatch.Keymap.LayerPress` | teakey_v1_4/keymaps/vial/keymap.c:106-110 | the layer step in place, then `layer_move` to the new index and a repaint |
| `Stopwatch.Keymap.ProcessRecord` | teakey_v1_4/keymaps/vial/keymap.c:77-114 | the new globals and returned flag are those of the handler's step, and the calls match the event |
| `Stopwatch.Keymap.Tick` | teakey_v1_4/keymaps/vial/keymap.c:117-123 | the tick step in place; a repaint happens only if the timer was running |

## Left out

- `keyboard_post_init_user` (I2C bring-up, SH1106 device creation, rotation, font loading) is not modelled. It consists only of calls into the hardware and display library.
- The font-failure check guards only the initial repaint. No later repaint depends on it, so the model has no "skip rendering" state.
- The internals of the `qp_*` drawing calls and of `layer_move` are not modelled. They appear only as abstract commands, `Display.DrawCmd` and `Stopwatch.HostCall`. The font is implicit in `Text`.
- Display.RenderFrame: a text command is checked to be on the panel at its anchor point only. How far the text extends depends on the font's glyph metrics, which are not modelled.
- The `keymaps` and `encoder_map` tables are constant keycode data with no logic. Only layers 0 to 3 are defined there, while the cycle reaches 4. So nothing here claims that `layer_move` targets a defined layer.
- The clocks `timer_read` and `timer_read32` are not modelled. Their readings are parameters. The two readings are independent, so the model does not assume `now16 == now32 mod 2^16`.
- `teakey_v1_4/config.h` holds pin and panel `#define`s with no behaviour.
