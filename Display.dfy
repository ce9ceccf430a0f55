/** The status screen drawn by `update_display`: the split of the elapsed time into
    hours, minutes and seconds, its "HH:MM:SS" text, the "Layer N" text, and the
    draw commands sent to the 128x64 monochrome panel. */
module Display {
  import opened Uint

  const MS_PER_SECOND: nat := 1000
  const MS_PER_MINUTE: nat := 60000
  const MS_PER_HOUR: nat := 3600000
  /** Hours are shown modulo 100, so the clock face repeats every 100 hours. */
  const MS_PER_DISPLAY_CYCLE: nat := 360000000

  const PANEL_WIDTH: int := 128
  const PANEL_HEIGHT: int := 64
  /** `char timer_display[9]` and `char layer_display[10]`. */
  const TIME_BUFFER_SIZE: nat := 9
  const LAYER_BUFFER_SIZE: nat := 10

  datatype Clock = Clock(hours: nat, minutes: nat, seconds: nat)

  /** The integer split of the elapsed milliseconds into the three shown fields. */
  function Split(elapsed: u32): (c: Clock)
    ensures c.hours < 100 && c.minutes < 60 && c.seconds < 60
  {
    Clock((elapsed / MS_PER_HOUR) % 100, (elapsed / MS_PER_MINUTE) % 60, (elapsed / MS_PER_SECOND) % 60)
  }

  /** The shown fields are the elapsed time modulo 100 hours, truncated to whole seconds. */
  lemma SplitReconstructs(elapsed: u32)
    ensures var c := Split(elapsed);
      c.hours * MS_PER_HOUR + c.minutes * MS_PER_MINUTE + c.seconds * MS_PER_SECOND + elapsed % MS_PER_SECOND
        == elapsed % MS_PER_DISPLAY_CYCLE
  {
    var t := elapsed / 1000;
    DivByMinute(elapsed);
    DivByHour(elapsed);
    ModByCycle(elapsed);
    SecondsByCycle(t);
    assert (t / 3600) % 100 * 3600000 + (t / 60) % 60 * 60000 + t % 60 * 1000 == (t % 360000) * 1000;
  }

  // Steps of the split arithmetic, each with literal divisors.

  lemma DivByMinute(e: nat)
    ensures e / 60000 == (e / 1000) / 60
  {
  }

  lemma DivByHour(e: nat)
    ensures e / 3600000 == (e / 1000) / 3600
  {
  }

  lemma ModByCycle(e: nat)
    ensures e % 360000000 == ((e / 1000) % 360000) * 1000 + e % 1000
  {
  }

  lemma SecondsByCycle(t: nat)
    ensures t % 360000 == (t / 3600) % 100 * 3600 + (t / 60) % 60 * 60 + t % 60
  {
    var m := t / 60;
    var h := m / 60;
    DivBy3600(t);
    assert t == 60 * m + t % 60;
    assert m == 60 * h + m % 60;
    assert h == 100 * (h / 100) + h % 100;
    assert t == 360000 * (h / 100) + (h % 100 * 3600 + m % 60 * 60 + t % 60);
    ModCycleUnique(t, h / 100, h % 100 * 3600 + m % 60 * 60 + t % 60);
  }

  lemma DivBy3600(t: nat)
    ensures t / 3600 == (t / 60) / 60
  {
  }

  lemma ModCycleUnique(a: nat, q: nat, r: nat)
    requires r < 360000 && a == 360000 * q + r
    ensures a % 360000 == r
  {
  }

  /** The clock face does not change when a multiple of 100 hours is added. */
  lemma SplitPeriodic(elapsed: u32)
    requires elapsed + MS_PER_DISPLAY_CYCLE < TWO_32
    ensures Split(elapsed + MS_PER_DISPLAY_CYCLE) == Split(elapsed)
  {
    CycleShiftsHours(elapsed);
    CycleShiftsMinutes(elapsed);
    CycleShiftsSeconds(elapsed);
  }

  lemma CycleShiftsHours(e: nat)
    ensures (e + 360000000) / 3600000 == e / 3600000 + 100
  {
  }

  lemma CycleShiftsMinutes(e: nat)
    ensures (e + 360000000) / 60000 == e / 60000 + 6000
  {
  }

  lemma CycleShiftsSeconds(e: nat)
    ensures (e + 360000000) / 1000 == e / 1000 + 360000
  {
  }

  // ---------------------------------------------------------------------------
  // Decimal text, as printf's %d and %02d produce it for non-negative values

  function DigitChar(d: nat): (ch: char)
    requires d < 10
    ensures '0' <= ch <= '9'
  {
    "0123456789"[d]
  }

  function DigitValue(ch: char): nat
  {
    if '0' <= ch <= '9' then (ch - '0') as nat else 0
  }

  predicate IsDigits(s: string)
  {
    forall i :: 0 <= i < |s| ==> '0' <= s[i] <= '9'
  }

  /** `%d` of a non-negative value: its shortest decimal representation. */
  function Decimal(n: nat): (s: string)
    ensures 1 <= |s| && IsDigits(s)
    ensures n < 10 <==> |s| == 1
    ensures n < 100 <==> |s| <= 2
    ensures n < 1000 <==> |s| <= 3
  {
    if n < 10 then [DigitChar(n)] else Decimal(n / 10) + [DigitChar(n % 10)]
  }

  /** Reads a string of decimal digits back as a number. */
  function ParseDecimal(s: string): nat
  {
    if s == [] then 0 else ParseDecimal(s[..|s| - 1]) * 10 + DigitValue(s[|s| - 1])
  }

  lemma {:induction false} DecimalRoundTrip(n: nat)
    ensures ParseDecimal(Decimal(n)) == n
  {
    var s := Decimal(n);
    if n < 10 {
      assert s[..|s| - 1] == [];
      assert DigitValue(DigitChar(n)) == n by { DigitValueOfChar(n); }
    } else {
      assert s[..|s| - 1] == Decimal(n / 10);
      DecimalRoundTrip(n / 10);
      DigitValueOfChar(n % 10);
    }
  }

  lemma DigitValueOfChar(d: nat)
    requires d < 10
    ensures DigitValue(DigitChar(d)) == d
  {
  }

  /** `%02d`: the decimal text, padded on the left with zeros to at least two characters. */
  function Pad2(n: nat): string
  {
    if n < 10 then "0" + Decimal(n) else Decimal(n)
  }

  lemma Pad2Exact(n: nat)
    requires n < 100
    ensures |Pad2(n)| == 2 && IsDigits(Pad2(n))
    ensures ParseDecimal(Pad2(n)) == n
  {
    DecimalRoundTrip(n);
    if n < 10 {
      var s := Pad2(n);
      assert s[..1] == "0";
      assert ParseDecimal("0") == 0 by { assert "0"[..0] == []; }
    }
  }

  /** `snprintf(buf, size, ...)` writes at most `size - 1` characters and a terminator. */
  function Snprintf(size: nat, s: string): (r: string)
    requires 0 < size
    ensures |r| < size && r <= s
    ensures |s| < size ==> r == s
  {
    if |s| < size then s else s[..size - 1]
  }

  // ---------------------------------------------------------------------------
  // The two texts of the status screen

  /** `"%02d:%02d:%02d"` of the split elapsed time. */
  function TimeText(elapsed: u32): string
  {
    var c := Split(elapsed);
    Pad2(c.hours) + ":" + Pad2(c.minutes) + ":" + Pad2(c.seconds)
  }

  /** Reads "HH:MM:SS" back into its three fields. */
  function ParseClock(s: string): Clock
    requires |s| == 8
  {
    Clock(ParseDecimal(s[0..2]), ParseDecimal(s[3..5]), ParseDecimal(s[6..8]))
  }

  /** The time text is eight characters, digits with colons at 2 and 5, and reads back as the split. */
  lemma TimeTextShape(elapsed: u32)
    ensures var s := TimeText(elapsed);
      |s| == 8 && s[2] == ':' && s[5] == ':' &&
      IsDigits(s[0..2]) && IsDigits(s[3..5]) && IsDigits(s[6..8]) &&
      ParseClock(s) == Split(elapsed)
  {
    var c := Split(elapsed);
    Pad2Exact(c.hours);
    Pad2Exact(c.minutes);
    Pad2Exact(c.seconds);
    var s := TimeText(elapsed);
    assert s[0..2] == Pad2(c.hours);
    assert s[3..5] == Pad2(c.minutes);
    assert s[6..8] == Pad2(c.seconds);
  }

  /** The time text always fits `timer_display[9]`: snprintf never truncates it. */
  lemma TimeTextFitsBuffer(elapsed: u32)
    ensures Snprintf(TIME_BUFFER_SIZE, TimeText(elapsed)) == TimeText(elapsed)
    ensures |TimeText(elapsed)| + 1 == TIME_BUFFER_SIZE
  {
    TimeTextShape(elapsed);
  }

  /** `"Layer %d"` of the layer index. */
  function LayerText(layer: u8): string
  {
    "Layer " + Decimal(layer)
  }

  /** Any `uint8_t` layer label fits `layer_display[10]`; an index below 10 gives "Layer " and one digit. */
  lemma LayerTextFitsBuffer(layer: u8)
    ensures Snprintf(LAYER_BUFFER_SIZE, LayerText(layer)) == LayerText(layer)
    ensures layer < 10 ==> LayerText(layer) == "Layer " + [DigitChar(layer)]
    ensures ParseDecimal(LayerText(layer)[6..]) == layer
  {
    DecimalRoundTrip(layer);
    assert LayerText(layer)[6..] == Decimal(layer);
  }

  // ---------------------------------------------------------------------------
  // Draw commands

  /** The colour argument (hue, saturation, value) of every primitive. */
  datatype Hsv = Hsv(hue: u8, sat: u8, val: u8)
  const WHITE: Hsv := Hsv(0, 0, 255)

  /** One call into the display driver, in the order `update_display` makes them. */
  datatype DrawCmd =
    | Clear
    | Text(x: int, y: int, text: string)
    | Circle(x: int, y: int, radius: int, color: Hsv, filled: bool)
    | Rect(left: int, top: int, right: int, bottom: int, color: Hsv, filled: bool)
    | Line(x0: int, y0: int, x1: int, y1: int, color: Hsv)
    | Flush

  const TIMER_CIRCLE_X: int := 113
  const TIMER_CIRCLE_Y: int := 16
  const LAYER_CIRCLE_X: int := 113
  const LAYER_CIRCLE_Y: int := 50
  const CIRCLE_RADIUS: int := 13

  /** The two bars drawn inside the timer ring while the timer runs. */
  const PAUSE_GLYPH: seq<DrawCmd> := [
    Rect(TIMER_CIRCLE_X - 4, TIMER_CIRCLE_Y - 5, TIMER_CIRCLE_X - 2, TIMER_CIRCLE_Y + 5, WHITE, true),
    Rect(TIMER_CIRCLE_X + 2, TIMER_CIRCLE_Y - 5, TIMER_CIRCLE_X + 4, TIMER_CIRCLE_Y + 5, WHITE, true)
  ]

  /** The outlined triangle drawn inside the timer ring while the timer is paused or reset. */
  const PLAY_GLYPH: seq<DrawCmd> := [
    Line(TIMER_CIRCLE_X - 3, TIMER_CIRCLE_Y - 5, TIMER_CIRCLE_X - 3, TIMER_CIRCLE_Y + 5, WHITE),
    Line(TIMER_CIRCLE_X - 3, TIMER_CIRCLE_Y - 5, TIMER_CIRCLE_X + 5, TIMER_CIRCLE_Y, WHITE),
    Line(TIMER_CIRCLE_X - 3, TIMER_CIRCLE_Y + 5, TIMER_CIRCLE_X + 5, TIMER_CIRCLE_Y, WHITE)
  ]

  /** The ring and stacked bars of the layer indicator. */
  const LAYER_ICON: seq<DrawCmd> := [
    Circle(LAYER_CIRCLE_X, LAYER_CIRCLE_Y, CIRCLE_RADIUS, WHITE, false),
    Rect(LAYER_CIRCLE_X - 5, LAYER_CIRCLE_Y - 5, LAYER_CIRCLE_X + 5, LAYER_CIRCLE_Y - 3, WHITE, true),
    Rect(LAYER_CIRCLE_X - 3, LAYER_CIRCLE_Y - 2, LAYER_CIRCLE_X + 3, LAYER_CIRCLE_Y, WHITE, true),
    Rect(LAYER_CIRCLE_X - 1, LAYER_CIRCLE_Y + 2, LAYER_CIRCLE_X + 1, LAYER_CIRCLE_Y + 4, WHITE, true)
  ]

  /** The glyph inside the timer ring: pause bars while running, a play triangle otherwise. */
  function Glyph(running: bool): seq<DrawCmd>
  {
    if running then PAUSE_GLYPH else PLAY_GLYPH
  }

  /** The part of the screen that shows the layer. */
  function LayerPart(layer: u8): seq<DrawCmd>
  {
    [Text(5, 40, Snprintf(LAYER_BUFFER_SIZE, LayerText(layer)))] + LAYER_ICON
  }

  /** The time text and the ring of the timer button. */
  function TimePart(elapsed: u32): seq<DrawCmd>
  {
    [Text(5, 5, Snprintf(TIME_BUFFER_SIZE, TimeText(elapsed))),
     Circle(TIMER_CIRCLE_X, TIMER_CIRCLE_Y, CIRCLE_RADIUS, WHITE, false)]
  }

  /** What is drawn between the clear and the flush. */
  function Picture(elapsed: u32, running: bool, layer: u8): seq<DrawCmd>
  {
    TimePart(elapsed) + Glyph(running) + LayerPart(layer)
  }

  /** Everything `update_display` sends to the panel for one repaint. */
  function Render(elapsed: u32, running: bool, layer: u8): seq<DrawCmd>
  {
    [Clear] + Picture(elapsed, running, layer) + [Flush]
  }

  /** A command whose every point lies on the 128x64 panel. */
  predicate OnPanel(cmd: DrawCmd)
  {
    match cmd
    case Clear => true
    case Flush => true
    case Text(x, y, _) => 0 <= x < PANEL_WIDTH && 0 <= y < PANEL_HEIGHT
    case Circle(x, y, r, _, _) =>
      0 <= r && 0 <= x - r && x + r < PANEL_WIDTH && 0 <= y - r && y + r < PANEL_HEIGHT
    case Rect(l, t, r, b, _, _) =>
      0 <= l <= r < PANEL_WIDTH && 0 <= t <= b < PANEL_HEIGHT
    case Line(x0, y0, x1, y1, _) =>
      0 <= x0 < PANEL_WIDTH && 0 <= x1 < PANEL_WIDTH && 0 <= y0 < PANEL_HEIGHT && 0 <= y1 < PANEL_HEIGHT
  }

  /** A drawing primitive (neither the clear nor the flush) that stays on the panel. */
  predicate Drawing(cmd: DrawCmd)
  {
    !cmd.Clear? && !cmd.Flush? && OnPanel(cmd)
  }

  predicate AllDrawing(cmds: seq<DrawCmd>)
  {
    forall i :: 0 <= i < |cmds| ==> Drawing(cmds[i])
  }

  lemma AllDrawingConcat(a: seq<DrawCmd>, b: seq<DrawCmd>)
    requires AllDrawing(a) && AllDrawing(b)
    ensures AllDrawing(a + b)
  {
  }

  lemma GlyphOnPanel(running: bool)
    ensures AllDrawing(Glyph(running))
  {
    assert Drawing(PAUSE_GLYPH[0]) && Drawing(PAUSE_GLYPH[1]);
    assert Drawing(PLAY_GLYPH[0]) && Drawing(PLAY_GLYPH[1]) && Drawing(PLAY_GLYPH[2]);
  }

  lemma LayerPartOnPanel(layer: u8)
    ensures AllDrawing(LayerPart(layer))
  {
    var part := LayerPart(layer);
    assert Drawing(part[0]);
    assert part[1..] == LAYER_ICON;
    assert Drawing(LAYER_ICON[0]) && Drawing(LAYER_ICON[1]) && Drawing(LAYER_ICON[2]) && Drawing(LAYER_ICON[3]);
  }

  /** A repaint clears the whole panel first, flushes last, draws the time text unabridged,
      and everything in between is a primitive that stays on the 128x64 panel. */
  lemma RenderFrame(elapsed: u32, running: bool, layer: u8)
    ensures var cmds := Render(elapsed, running, layer);
      |cmds| >= 2 && cmds[0] == Clear && cmds[|cmds| - 1] == Flush &&
      cmds[1] == Text(5, 5, TimeText(elapsed)) &&
      AllDrawing(cmds[1..|cmds| - 1])
  {
    TimeTextFitsBuffer(elapsed);
    var head := TimePart(elapsed);
    assert Drawing(head[0]) && Drawing(head[1]);
    GlyphOnPanel(running);
    LayerPartOnPanel(layer);
    AllDrawingConcat(head, Glyph(running));
    AllDrawingConcat(head + Glyph(running), LayerPart(layer));
    var cmds := Render(elapsed, running, layer);
    assert cmds[1..|cmds| - 1] == Picture(elapsed, running, layer);
  }

  /** Both pause bars are among the commands. */
  predicate ShowsPause(cmds: seq<DrawCmd>)
  {
    PAUSE_GLYPH[0] in cmds && PAUSE_GLYPH[1] in cmds
  }

  /** All three edges of the play triangle are among the commands. */
  predicate ShowsPlay(cmds: seq<DrawCmd>)
  {
    PLAY_GLYPH[0] in cmds && PLAY_GLYPH[1] in cmds && PLAY_GLYPH[2] in cmds
  }

  /** No command of the sequence is a line or one of the pause bars. */
  predicate FreeOfTimerGlyphs(cmds: seq<DrawCmd>)
  {
    forall c | c in cmds :: !c.Line? && c != PAUSE_GLYPH[0] && c != PAUSE_GLYPH[1]
  }

  /** Membership in five joined parts is membership in the glyph part `g` or in the other four. */
  lemma MembersOfConcatWithGlyph(a: seq<DrawCmd>, b: seq<DrawCmd>, g: seq<DrawCmd>, d: seq<DrawCmd>, e: seq<DrawCmd>)
    ensures forall c :: c in a + b + g + d + e <==> c in a + b + d + e || c in g
  {
  }

  lemma TextAndIconsFreeOfTimerGlyphs(timeText: string, layerText: string)
    ensures FreeOfTimerGlyphs([Clear, Text(5, 5, timeText), Circle(TIMER_CIRCLE_X, TIMER_CIRCLE_Y, CIRCLE_RADIUS, WHITE, false)]
                              + ([Text(5, 40, layerText)] + LAYER_ICON) + [Flush])
  {
  }

  /** A repaint is its glyph plus the commands that do not depend on `running`, and those
      contain neither lines nor pause bars. */
  lemma RenderSplitsAtGlyph(elapsed: u32, running: bool, layer: u8)
    ensures var others := [Clear] + TimePart(elapsed) + LayerPart(layer) + [Flush];
      FreeOfTimerGlyphs(others) &&
      forall c :: c in Render(elapsed, running, layer) <==> c in others || c in Glyph(running)
  {
    MembersOfConcatWithGlyph([Clear], TimePart(elapsed), Glyph(running), LayerPart(layer), [Flush]);
    TextAndIconsFreeOfTimerGlyphs(Snprintf(TIME_BUFFER_SIZE, TimeText(elapsed)), Snprintf(LAYER_BUFFER_SIZE, LayerText(layer)));
  }

  /** The pause bars appear exactly when the timer runs, the play triangle exactly when it
      does not; no line at all is drawn while it runs. */
  lemma GlyphFollowsRunning(elapsed: u32, running: bool, layer: u8)
    ensures ShowsPause(Render(elapsed, running, layer)) <==> running
    ensures ShowsPlay(Render(elapsed, running, layer)) <==> !running
    ensures running ==> forall i :: 0 <= i < |Render(elapsed, running, layer)| ==> !Render(elapsed, running, layer)[i].Line?
  {
    RenderSplitsAtGlyph(elapsed, running, layer);
    var cmds := Render(elapsed, running, layer);
    if running {
      assert PAUSE_GLYPH[0] in Glyph(running) && PAUSE_GLYPH[1] in Glyph(running);
      assert PLAY_GLYPH[0] !in Glyph(running);
      forall i | 0 <= i < |cmds| ensures !cmds[i].Line? {
        assert cmds[i] in cmds;
      }
    } else {
      assert PLAY_GLYPH[0] in Glyph(running) && PLAY_GLYPH[1] in Glyph(running) && PLAY_GLYPH[2] in Glyph(running);
      assert PAUSE_GLYPH[0] !in Glyph(running);
    }
  }

  /** The layer part of the screen depends on the layer alone, never on the timer. */
  lemma LayerPartIndependent(elapsed: u32, running: bool, layer: u8)
    ensures var cmds := Render(elapsed, running, layer);
      |cmds| >= |LayerPart(layer)| + 1 &&
      cmds[|cmds| - 1 - |LayerPart(layer)|..|cmds| - 1] == LayerPart(layer)
  {
    var cmds := Render(elapsed, running, layer);
    var pre := [Clear] + TimePart(elapsed) + Glyph(running);
    assert cmds == pre + LayerPart(layer) + [Flush];
  }
}
