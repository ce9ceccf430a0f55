/** The stopwatch and layer-cycle feature of the keymap: the five global variables,
    the key-event handler `process_record_user`, and the periodic `housekeeping_task_user`.
    The hardware clocks are parameters: `now16` is what `timer_read()` returns at that
    moment and `now32` what `timer_read32()` returns. */
module Stopwatch {
  import opened Uint
  import Display

  /** A release later than this many ticks after the press is a long press. */
  const LONG_PRESS: nat := 500
  /** `current_layer` cycles through this many indices. */
  const LAYER_COUNT: nat := 5

  /** The keycodes the handler tells apart: its two custom keys and everything else. */
  datatype Keycode = TimerKey | LayerCycle | Other(code: u16)

  /** The values of the five globals `timer_running`, `timer_start`, `start_time`,
      `elapsed_time` and `current_layer`. */
  datatype State = State(running: bool, timerStart: u32, startTime: u32, elapsed: u32, layer: u8)

  /** The globals as the firmware starts: everything zero, the timer stopped. */
  const INITIAL: State := State(false, 0, 0, 0, 0)

  /** What every reachable state satisfies: `timer_start` only ever holds a `timer_read()`
      value, and the layer index stays below the cycle length. */
  predicate WellFormed(s: State)
  {
    s.timerStart < TWO_16 && s.layer < LAYER_COUNT
  }

  /** `timer_elapsed(timer_start)`: the 16-bit wrapping time since the recorded press.
      `timer_elapsed` takes a `uint16_t`, so `timer_start` is converted first. */
  function HoldDuration(s: State, now16: u16): u16
  {
    Sub16(now16, Trunc16(s.timerStart))
  }

  /** The time the stopwatch stands at: counting from `start_time` while running, frozen otherwise. */
  function Shown(s: State, now32: u32): u32
  {
    if s.running then Sub32(now32, s.startTime) else s.elapsed
  }

  // ---------------------------------------------------------------------------
  // One step per event

  /** TIMER_KEY pressed: record the press time. */
  function PressStep(s: State, now16: u16): State
  {
    s.(timerStart := now16)
  }

  /** TIMER_KEY released: a long hold resets; a short one pauses or resumes. */
  function ReleaseStep(s: State, now16: u16, now32: u32): State
  {
    if HoldDuration(s, now16) > LONG_PRESS then
      s.(elapsed := 0, running := false)
    else if s.running then
      s.(elapsed := Sub32(now32, s.startTime), running := false)
    else
      s.(startTime := Sub32(now32, s.elapsed), running := true)
  }

  /** The housekeeping tick: refresh `elapsed_time` while running. */
  function TickStep(s: State, now32: u32): State
  {
    if s.running then s.(elapsed := Sub32(now32, s.startTime)) else s
  }

  /** LAYER_CYCLE pressed: the next layer index. `current_layer + 1` is computed in `int`,
      so it does not wrap at 256. */
  function LayerStep(s: State): State
  {
    s.(layer := (s.layer + 1) % LAYER_COUNT)
  }

  /** The handler's result: the new globals, and whether the framework goes on with
      its own handling of the key (the `bool` that `process_record_user` returns). */
  datatype Handled = Handled(next: State, passOn: bool)

  /** `process_record_user` for one key event. */
  function Process(s: State, key: Keycode, pressed: bool, now16: u16, now32: u32): Handled
  {
    match key
    case TimerKey =>
      Handled(if pressed then PressStep(s, now16) else ReleaseStep(s, now16, now32), false)
    case LayerCycle =>
      Handled(if pressed then LayerStep(s) else s, false)
    case Other(_) =>
      Handled(s, true)
  }

  // ---------------------------------------------------------------------------
  // Calls out to the framework

  /** `layer_move(n)` or one run of `update_display` (its draw commands). */
  datatype HostCall = LayerMove(layer: u8) | Paint(cmds: seq<Display.DrawCmd>)

  /** `update_display()` over the given globals. */
  function Repaint(s: State): HostCall
  {
    Paint(Display.Render(s.elapsed, s.running, s.layer))
  }

  /** The calls the handler makes for a key event, given the globals after it. */
  function ProcessCalls(key: Keycode, pressed: bool, next: State): seq<HostCall>
  {
    match key
    case TimerKey => if pressed then [] else [Repaint(next)]
    case LayerCycle => if pressed then [LayerMove(next.layer), Repaint(next)] else []
    case Other(_) => []
  }

  // ---------------------------------------------------------------------------
  // TIMER_KEY

  /** A press only records the 16-bit press time; the hold later measured at a release is the
      wrapping distance from it, and the plain difference when the counter has not wrapped. */
  lemma PressRecordsTime(s: State, press16: u16, release16: u16)
    ensures var p := PressStep(s, press16);
      p.running == s.running && p.startTime == s.startTime && p.elapsed == s.elapsed &&
      p.layer == s.layer && p.timerStart == press16 &&
      HoldDuration(p, release16) == Sub16(release16, press16) &&
      (press16 <= release16 ==> HoldDuration(p, release16) == release16 - press16)
  {
  }

  /** A long press resets whatever the state was; `start_time` and the layer are kept. */
  lemma LongReleaseResets(s: State, now16: u16, now32: u32)
    requires HoldDuration(s, now16) > LONG_PRESS
    ensures var r := ReleaseStep(s, now16, now32);
      !r.running && r.elapsed == 0 &&
      r.startTime == s.startTime && r.timerStart == s.timerStart && r.layer == s.layer
  {
  }

  /** A press then a release more than 500 ticks later always ends stopped at zero. */
  lemma LongPressResets(s: State, press16: u16, release16: u16, now32: u32)
    requires Sub16(release16, press16) > LONG_PRESS
    ensures var r := ReleaseStep(PressStep(s, press16), release16, now32);
      !r.running && r.elapsed == 0 && Shown(r, now32) == 0
  {
  }

  /** The hold is a 16-bit count, so a release 65,636 ticks after the press measures
      only 100 and toggles the stopwatch as a short press would. */
  lemma LongHoldWrapsToShort(s: State, p: u16, now32: u32)
    ensures var pressed := PressStep(s, p);
      HoldDuration(pressed, Trunc16(p + 65636)) == 100 &&
      ReleaseStep(pressed, Trunc16(p + 65636), now32).running == !s.running
  {
  }

  /** A short press while running pauses, freezing the time counted from `start_time`. */
  lemma ShortReleasePauses(s: State, now16: u16, now32: u32)
    requires HoldDuration(s, now16) <= LONG_PRESS && s.running
    ensures var r := ReleaseStep(s, now16, now32);
      !r.running && r.elapsed == Sub32(now32, s.startTime) &&
      r.startTime == s.startTime && r.timerStart == s.timerStart && r.layer == s.layer
  {
  }

  /** A short press while stopped resumes, backdating `start_time` by the frozen time. */
  lemma ShortReleaseResumes(s: State, now16: u16, now32: u32)
    requires HoldDuration(s, now16) <= LONG_PRESS && !s.running
    ensures var r := ReleaseStep(s, now16, now32);
      r.running && r.startTime == Sub32(now32, s.elapsed) && Add32(r.startTime, s.elapsed) == now32 &&
      r.elapsed == s.elapsed && r.timerStart == s.timerStart && r.layer == s.layer
  {
    AddAfterSub(now32, s.elapsed);
  }

  /** A short press flips `running` and does not move the shown time at the moment of the
      press: pausing freezes exactly what was shown, resuming continues from it. */
  lemma ShortReleaseKeepsShown(s: State, now16: u16, now32: u32)
    requires HoldDuration(s, now16) <= LONG_PRESS
    ensures ReleaseStep(s, now16, now32).running == !s.running
    ensures Shown(ReleaseStep(s, now16, now32), now32) == Shown(s, now32)
  {
    if !s.running {
      SubSubCancel(now32, s.elapsed);
    }
  }

  /** After resuming at `t2` from a frozen `e`, the time seen at `t3` by a tick or by a
      pausing short press is `e + (t3 - t2)`, all modulo 2^32: the paused interval is skipped. */
  lemma ResumeCompensates(s: State, now16: u16, t2: u32, later16: u16, t3: u32)
    requires !s.running && HoldDuration(s, now16) <= LONG_PRESS
    requires HoldDuration(ReleaseStep(s, now16, t2), later16) <= LONG_PRESS
    ensures var resumed := ReleaseStep(s, now16, t2);
      TickStep(resumed, t3).elapsed == Add32(s.elapsed, Sub32(t3, t2)) &&
      ReleaseStep(resumed, later16, t3).elapsed == Add32(s.elapsed, Sub32(t3, t2)) &&
      !ReleaseStep(resumed, later16, t3).running
  {
    SubOfSub(t3, t2, s.elapsed);
  }

  /** Pause at `t1`, resume at `t2`, look at `t3`: the time counted is the running time
      before the pause plus the time since the resume; without wrap-around this is
      `(t1 - start) + (t3 - t2)`. */
  lemma PauseResumeRoundTrip(s: State, p16: u16, t1: u32, r16: u16, t2: u32, t3: u32)
    requires s.running && HoldDuration(s, p16) <= LONG_PRESS
    requires HoldDuration(ReleaseStep(s, p16, t1), r16) <= LONG_PRESS
    ensures var e := TickStep(ReleaseStep(ReleaseStep(s, p16, t1), r16, t2), t3).elapsed;
      e == Add32(Sub32(t1, s.startTime), Sub32(t3, t2)) &&
      (s.startTime <= t1 && t2 <= t3 && (t1 - s.startTime) + (t3 - t2) < TWO_32 ==>
        e == (t1 - s.startTime) + (t3 - t2))
  {
    var paused := ReleaseStep(s, p16, t1);
    SubOfSub(t3, t2, paused.elapsed);
  }

  // ---------------------------------------------------------------------------
  // The housekeeping tick

  /** Ticks at the given times, in order. */
  function Ticks(s: State, times: seq<u32>): State
    decreases |times|
  {
    if times == [] then s else Ticks(TickStep(s, times[0]), times[1..])
  }

  /** While stopped, any number of ticks leaves every global as it was. */
  lemma {:induction false} TicksWhileStoppedChangeNothing(s: State, times: seq<u32>)
    requires !s.running
    ensures Ticks(s, times) == s
    decreases |times|
  {
    if times != [] {
      TicksWhileStoppedChangeNothing(TickStep(s, times[0]), times[1..]);
    }
  }

  /** While running, a tick copies the shown time into `elapsed_time` and changes nothing
      else; a second tick at the same moment changes nothing. */
  lemma TickWhileRunning(s: State, now32: u32)
    requires s.running
    ensures var t := TickStep(s, now32);
      t.elapsed == Shown(s, now32) && t.running && t.startTime == s.startTime &&
      t.timerStart == s.timerStart && t.layer == s.layer &&
      TickStep(t, now32) == t
  {
  }

  /** A tick never changes the shown time at its own moment, nor at any later moment. */
  lemma TickKeepsShown(s: State, now32: u32, later: u32)
    ensures Shown(TickStep(s, now32), later) == Shown(s, later)
  {
  }

  // ---------------------------------------------------------------------------
  // LAYER_CYCLE

  /** `n` presses of LAYER_CYCLE. */
  function LayerPresses(s: State, n: nat): State
    decreases n
  {
    if n == 0 then s else LayerPresses(LayerStep(s), n - 1)
  }

  /** One press moves to the next index, from 4 back to 0, staying in [0, 5). */
  lemma LayerStepNext(s: State)
    requires WellFormed(s)
    ensures WellFormed(LayerStep(s))
    ensures LayerStep(s).layer == if s.layer == 4 then 0 else s.layer + 1
  {
  }

  /** `n` presses add `n` to the layer index modulo 5 and change nothing else. */
  lemma {:induction false} LayerPressesAdd(s: State, n: nat)
    requires WellFormed(s)
    ensures LayerPresses(s, n) == s.(layer := (s.layer + n) % LAYER_COUNT)
    decreases n
  {
    if n > 0 {
      LayerPressesAdd(LayerStep(s), n - 1);
      assert (s.layer + 1) % 5 + (n - 1) == s.layer + n || (s.layer + 1) % 5 + (n - 1) == s.layer + n - 5;
    }
  }

  /** Five presses of LAYER_CYCLE come back to the starting state. */
  lemma FiveLayerPressesReturn(s: State)
    requires WellFormed(s)
    ensures LayerPresses(s, 5) == s
  {
    LayerPressesAdd(s, 5);
  }

  // ---------------------------------------------------------------------------
  // The handler as a whole

  /** Keys other than the two custom ones go on to the framework and change nothing;
      the two custom keys are always consumed. */
  lemma ProcessPassesOnOnlyOtherKeys(s: State, key: Keycode, pressed: bool, now16: u16, now32: u32)
    ensures Process(s, key, pressed, now16, now32).passOn <==> key.Other?
    ensures key.Other? ==> Process(s, key, pressed, now16, now32).next == s
    ensures key.Other? ==> ProcessCalls(key, pressed, Process(s, key, pressed, now16, now32).next) == []
  {
  }

  /** A LAYER_CYCLE release changes nothing and calls nothing. */
  lemma LayerReleaseIgnored(s: State, now16: u16, now32: u32)
    ensures Process(s, LayerCycle, false, now16, now32) == Handled(s, false)
    ensures ProcessCalls(LayerCycle, false, s) == []
  {
  }

  /** Every key event and every tick keeps the globals well formed; the layer moved to is
      always below 5. */
  lemma ProcessKeepsWellFormed(s: State, key: Keycode, pressed: bool, now16: u16, now32: u32)
    requires WellFormed(s)
    ensures WellFormed(Process(s, key, pressed, now16, now32).next)
    ensures WellFormed(TickStep(s, now32))
    ensures forall c | c in ProcessCalls(key, pressed, Process(s, key, pressed, now16, now32).next) ::
      c.LayerMove? ==> c.layer < LAYER_COUNT
  {
  }

  /** A sample session from the initial state: a short press starts
      it at `t0`; a tick 65 s later shows "00:01:05"; a short press then pauses at 65 s; a
      short press 5 s later resumes with `start_time` 65 s before that moment; a long press
      10 s after that stops it at zero. `p` is the 16-bit time of each press. */
  lemma StopwatchSession(t0: u32, p: u16)
    requires t0 + 80000 < TWO_32
    ensures var started := ReleaseStep(PressStep(INITIAL, p), p, t0);
      started.running && started.startTime == t0 &&
      var ticked := TickStep(started, t0 + 65000);
      ticked.elapsed == 65000 &&
      Display.TimeText(ticked.elapsed) == "00:01:05" &&
      var paused := ReleaseStep(PressStep(ticked, p), p, t0 + 65000);
      !paused.running && paused.elapsed == 65000 &&
      var resumed := ReleaseStep(PressStep(paused, p), p, t0 + 70000);
      resumed.running && resumed.startTime == t0 + 5000 &&
      var stopped := ReleaseStep(PressStep(resumed, p), Trunc16(p + 600), t0 + 80000);
      !stopped.running && stopped.elapsed == 0
  {
    var c := Display.Split(65000);
    assert c == Display.Clock(0, 1, 5);
    assert Display.Decimal(0) == "0" && Display.Decimal(1) == "1" && Display.Decimal(5) == "5";
    assert Display.Pad2(0) == "00" && Display.Pad2(1) == "01" && Display.Pad2(5) == "05";
  }

  // ---------------------------------------------------------------------------
  // What the repaints show

  /** The repaint that follows a TIMER_KEY release draws the time shown at that moment. */
  lemma ReleasePaintsShown(s: State, now16: u16, now32: u32)
    ensures var r := ReleaseStep(s, now16, now32);
      Repaint(r).cmds[1] == Display.Text(5, 5, Display.TimeText(Shown(r, now32)))
  {
    var r := ReleaseStep(s, now16, now32);
    Display.RenderFrame(r.elapsed, r.running, r.layer);
    if r.running {
      SubSubCancel(now32, s.elapsed);
    }
  }

  /** The repaint that follows a tick while running draws the time shown at that moment. */
  lemma TickPaintsShown(s: State, now32: u32)
    requires s.running
    ensures var t := TickStep(s, now32);
      Repaint(t).cmds[1] == Display.Text(5, 5, Display.TimeText(Shown(t, now32)))
  {
    var t := TickStep(s, now32);
    Display.RenderFrame(t.elapsed, t.running, t.layer);
  }

  /** The repaint that follows a LAYER_CYCLE press draws `elapsed_time`, which while running
      is the time as of the last tick, not the time shown at that moment. */
  lemma LayerPressPaintsLastTick(s: State)
    ensures var l := LayerStep(s);
      Repaint(l).cmds[1] == Display.Text(5, 5, Display.TimeText(s.elapsed))
  {
    var l := LayerStep(s);
    Display.RenderFrame(l.elapsed, l.running, l.layer);
  }

  /** A LAYER_CYCLE press 5 s after the timer started, with no tick since, paints "00:00:00"
      while the stopwatch stands at 5000 ms. */
  lemma LayerPressCanLagShown()
    ensures var s := State(true, 0, 0, 0, 0);
      Shown(LayerStep(s), 5000) == 5000 &&
      Repaint(LayerStep(s)).cmds[1] == Display.Text(5, 5, "00:00:00")
  {
    var s := State(true, 0, 0, 0, 0);
    LayerPressPaintsLastTick(s);
    assert Display.Split(0) == Display.Clock(0, 0, 0);
    assert Display.Decimal(0) == "0";
    assert Display.Pad2(0) == "00";
  }

  // ---------------------------------------------------------------------------
  // The globals, updated in place

  /** The five globals of the keymap and the entry points that update them. */
  class Keymap {
    var timerRunning: bool
    var timerStart: u32
    var startTime: u32
    var elapsedTime: u32
    var currentLayer: u8

    ghost function Snapshot(): State
      reads this
    {
      State(timerRunning, timerStart, startTime, elapsedTime, currentLayer)
    }

    ghost predicate Valid()
      reads this
    {
      WellFormed(Snapshot())
    }

    /** The static initialisers. */
    constructor ()
      ensures Valid() && Snapshot() == INITIAL
    {
      timerRunning := false;
      timerStart := 0;
      elapsedTime := 0;
      startTime := 0;
      currentLayer := 0;
    }

    /** The TIMER_KEY press branch. */
    method Press(now16: u16)
      requires Valid()
      modifies this
      ensures Valid() && Snapshot() == PressStep(old(Snapshot()), now16)
    {
      timerStart := now16;
    }

    /** The TIMER_KEY release branch, ending with `update_display()`. */
    method Release(now16: u16, now32: u32) returns (calls: seq<HostCall>)
      requires Valid()
      modifies this
      ensures Valid() && Snapshot() == ReleaseStep(old(Snapshot()), now16, now32)
      ensures calls == [Repaint(Snapshot())]
    {
      var holdDuration := Sub16(now16, Trunc16(timerStart));
      if holdDuration > 500 {
        elapsedTime := 0;
        timerRunning := false;
      } else {
        if timerRunning {
          elapsedTime := Sub32(now32, startTime);
          timerRunning := false;
        } else {
          startTime := Sub32(now32, elapsedTime);
          timerRunning := true;
        }
      }
      calls := [Paint(Display.Render(elapsedTime, timerRunning, currentLayer))];
    }

    /** The LAYER_CYCLE press branch: next index, `layer_move`, `update_display()`. */
    method LayerPress() returns (calls: seq<HostCall>)
      requires Valid()
      modifies this
      ensures Valid() && Snapshot() == LayerStep(old(Snapshot()))
      ensures calls == [LayerMove(currentLayer), Repaint(Snapshot())]
    {
      currentLayer := (currentLayer + 1) % 5;
      calls := [LayerMove(currentLayer), Paint(Display.Render(elapsedTime, timerRunning, currentLayer))];
    }

    /** `process_record_user`. */
    method ProcessRecord(key: Keycode, pressed: bool, now16: u16, now32: u32)
      returns (passOn: bool, calls: seq<HostCall>)
      requires Valid()
      modifies this
      ensures Valid()
      ensures Handled(Snapshot(), passOn) == Process(old(Snapshot()), key, pressed, now16, now32)
      ensures calls == ProcessCalls(key, pressed, Snapshot())
    {
      calls := [];
      match key {
        case TimerKey =>
          if pressed {
            Press(now16);
          }
          if !pressed {
            calls := Release(now16, now32);
          }
          passOn := false;
        case LayerCycle =>
          if pressed {
            calls := LayerPress();
          }
          passOn := false;
        case Other(_) =>
          passOn := true;
      }
    }

    /** `housekeeping_task_user`: while running, refresh `elapsed_time` and repaint. */
    method Tick(now32: u32) returns (calls: seq<HostCall>)
      requires Valid()
      modifies this
      ensures Valid() && Snapshot() == TickStep(old(Snapshot()), now32)
      ensures calls == if old(timerRunning) then [Repaint(Snapshot())] else []
    {
      calls := [];
      if timerRunning {
        elapsedTime := Sub32(now32, startTime);
        calls := [Paint(Display.Render(elapsedTime, timerRunning, currentLayer))];
      }
    }
  }
}
