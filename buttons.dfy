/**
 * `check_buttons`: polls the three buttons and reports, as a bit set, which
 * buttons were released since the last poll and whether each release was
 * short or long. A release counts as long when the recorded press time lies
 * in an earlier second than the release (the clock has whole seconds).
 */
module Buttons {

  /** Event bits returned by a poll. */
  const SEL: bv8 := 1
  const UP: bv8 := 2
  const DOWN: bv8 := 4
  const SEL_LONG: bv8 := 8
  const UP_LONG: bv8 := 16
  const DOWN_LONG: bv8 := 32

  /**
   * Which buttons are held: `sel` is the bottom-left button, `up` the
   * top-right one and `down` the bottom-right one.
   */
  datatype Pressed = Pressed(sel: bool, up: bool, down: bool)

  const NonePressed := Pressed(false, false, false)

  /** The globals kept between polls: the previous reading and the press time `button_sel_time`. */
  datatype PollState = PollState(prev: Pressed, selTime: int)

  /**
   * One button's part of a poll against the timer `timer`: a press records
   * the time `t`; a release reports `long` if the timer lies before `t` and
   * `short` otherwise; no change reports nothing.
   */
  function Track(isDown: bool, wasDown: bool, timer: int, t: int, short: bv8, long: bv8): (int, bv8)
  {
    if isDown && !wasDown then (t, 0)
    else if !isDown && wasDown then (timer, if timer < t then long else short)
    else (timer, 0)
  }

  /**
   * A poll as written: the three buttons are handled in order and share the
   * single timer, so a press of one button moves the timer every later
   * release is measured against.
   */
  function Poll(st: PollState, p: Pressed, t: int): (PollState, bv8)
  {
    var (t1, e1) := Track(p.sel, st.prev.sel, st.selTime, t, SEL, SEL_LONG);
    var (t2, e2) := Track(p.up, st.prev.up, t1, t, UP, UP_LONG);
    var (t3, e3) := Track(p.down, st.prev.down, t2, t, DOWN, DOWN_LONG);
    (PollState(p, t3), e1 | e2 | e3)
  }

  /**
   * A button's events are reported exactly on its release, as either a short
   * or a long release and never both; no other bits are set; the reading
   * becomes the previous one.
   */
  lemma PollEvents(st: PollState, p: Pressed, t: int)
    ensures var (next, e) := Poll(st, p, t);
      && next.prev == p
      && (e & (SEL | SEL_LONG) != 0 <==> st.prev.sel && !p.sel)
      && (e & (UP | UP_LONG) != 0 <==> st.prev.up && !p.up)
      && (e & (DOWN | DOWN_LONG) != 0 <==> st.prev.down && !p.down)
      && (e & (SEL | SEL_LONG) != SEL | SEL_LONG)
      && (e & (UP | UP_LONG) != UP | UP_LONG)
      && (e & (DOWN | DOWN_LONG) != DOWN | DOWN_LONG)
      && e & 0xC0 == 0
  {
  }

  /**
   * Short or long, as written: each release is measured against the shared
   * timer as the earlier buttons of the same poll left it, so a press of
   * the bottom-left button moves the timer the top-right release is
   * measured against, and a press of either moves the one the bottom-right
   * release is measured against.
   */
  lemma PollLong(st: PollState, p: Pressed, t: int)
    ensures var e := Poll(st, p, t).1;
      var t1 := if p.sel && !st.prev.sel then t else st.selTime;
      var t2 := if p.up && !st.prev.up then t else t1;
      && (e & SEL_LONG != 0 <==> st.prev.sel && !p.sel && st.selTime < t)
      && (e & SEL != 0 <==> st.prev.sel && !p.sel && st.selTime >= t)
      && (e & UP_LONG != 0 <==> st.prev.up && !p.up && t1 < t)
      && (e & UP != 0 <==> st.prev.up && !p.up && t1 >= t)
      && (e & DOWN_LONG != 0 <==> st.prev.down && !p.down && t2 < t)
      && (e & DOWN != 0 <==> st.prev.down && !p.down && t2 >= t)
  {
  }

  /** A poll that sees the same buttons as the last one reports nothing and keeps the timer. */
  lemma PollNoChange(st: PollState, t: int)
    ensures Poll(st, st.prev, t) == (st, 0)
  {
  }

  /** The shared timer moves to `t` when any button goes down, and stays otherwise. */
  lemma PollSharedTimer(st: PollState, p: Pressed, t: int)
    ensures Poll(st, p, t).0.selTime ==
      if (p.sel && !st.prev.sel) || (p.up && !st.prev.up) || (p.down && !st.prev.down) then t else st.selTime
  {
  }

  /**
   * The shared timer misreports a long press: the bottom-left button is held
   * from second 0; in second 4 the top-right button goes down, and in the
   * same second the bottom-left one is released. It was held for four
   * seconds, yet the release is reported short, because the other button's
   * press reset the timer.
   */
  lemma SharedTimerCounterexample()
    ensures var st0 := PollState(Pressed(true, false, false), 0);
      var (st1, e1) := Poll(st0, Pressed(true, true, false), 4);
      var (st2, e2) := Poll(st1, Pressed(false, true, false), 4);
      e1 == 0 && st1.selTime == 4 && e2 == SEL && e2 & SEL_LONG == 0
  {
  }

  /** One press time per button, as the unused globals `button_up_time` and `button_down_time` suggest. */
  datatype Timers = Timers(prev: Pressed, selTime: int, upTime: int, downTime: int)

  /** The poll with a timer per button: each release is measured against that button's own press. */
  function PollSeparate(st: Timers, p: Pressed, t: int): (Timers, bv8)
  {
    var (ts, es) := Track(p.sel, st.prev.sel, st.selTime, t, SEL, SEL_LONG);
    var (tu, eu) := Track(p.up, st.prev.up, st.upTime, t, UP, UP_LONG);
    var (td, ed) := Track(p.down, st.prev.down, st.downTime, t, DOWN, DOWN_LONG);
    (Timers(p, ts, tu, td), es | eu | ed)
  }

  /**
   * With separate timers each button's timer is moved only by its own press,
   * and a release is long exactly when that button's own press time lies
   * before the release; the other buttons cannot influence it.
   */
  lemma SeparateTimersLong(st: Timers, p: Pressed, t: int)
    ensures var (next, e) := PollSeparate(st, p, t);
      && next.prev == p
      && next.selTime == (if p.sel && !st.prev.sel then t else st.selTime)
      && next.upTime == (if p.up && !st.prev.up then t else st.upTime)
      && next.downTime == (if p.down && !st.prev.down then t else st.downTime)
      && (e & SEL_LONG != 0 <==> st.prev.sel && !p.sel && st.selTime < t)
      && (e & SEL != 0 <==> st.prev.sel && !p.sel && st.selTime >= t)
      && (e & UP_LONG != 0 <==> st.prev.up && !p.up && st.upTime < t)
      && (e & UP != 0 <==> st.prev.up && !p.up && st.upTime >= t)
      && (e & DOWN_LONG != 0 <==> st.prev.down && !p.down && st.downTime < t)
      && (e & DOWN != 0 <==> st.prev.down && !p.down && st.downTime >= t)
  {
  }

  /** The scenario of `SharedTimerCounterexample` with separate timers: the release is long. */
  lemma SeparateTimersScenario()
    ensures var st0 := Timers(Pressed(true, false, false), 0, 0, 0);
      var (st1, e1) := PollSeparate(st0, Pressed(true, true, false), 4);
      var (st2, e2) := PollSeparate(st1, Pressed(false, true, false), 4);
      e1 == 0 && e2 == SEL_LONG
  {
    SeparateTimersLong(Timers(Pressed(true, false, false), 0, 0, 0), Pressed(true, true, false), 4);
  }

  /**
   * The module's globals `pressed_prev`, `button_sel_time`, `button_up_time`
   * and `button_down_time`.
   */
  class ButtonPoller {
    var pressedPrev: Pressed
    var selTime: int
    var upTime: int
    var downTime: int

    /** What `check_buttons` as written reads and writes. */
    function State(): PollState
      reads this
    {
      PollState(pressedPrev, selTime)
    }

    /** All four globals, as the corrected poll uses them. */
    function AllTimers(): Timers
      reads this
    {
      Timers(pressedPrev, selTime, upTime, downTime)
    }

    /** Module load: no button held, every timer 0. */
    constructor ()
      ensures AllTimers() == Timers(NonePressed, 0, 0, 0)
    {
      pressedPrev := NonePressed;
      selTime := 0;
      upTime := 0;
      downTime := 0;
    }

    /**
     * `check_buttons` as written, with the buttons read as `pressed` at clock
     * second `t`: every press moves `button_sel_time`; the other two timers
     * are never touched.
     */
    method Check(pressed: Pressed, t: int) returns (events: bv8)
      modifies this
      ensures (State(), events) == Poll(old(State()), pressed, t)
      ensures upTime == old(upTime) && downTime == old(downTime)
    {
      events := 0;
      if pressed.sel && !pressedPrev.sel {
        selTime := t;
      } else if !pressed.sel && pressedPrev.sel {
        if selTime < t {
          events := events | SEL_LONG;
        } else {
          events := events | SEL;
        }
      }
      if pressed.up && !pressedPrev.up {
        selTime := t;
      } else if !pressed.up && pressedPrev.up {
        if selTime < t {
          events := events | UP_LONG;
        } else {
          events := events | UP;
        }
      }
      if pressed.down && !pressedPrev.down {
        selTime := t;
      } else if !pressed.down && pressedPrev.down {
        if selTime < t {
          events := events | DOWN_LONG;
        } else {
          events := events | DOWN;
        }
      }
      pressedPrev := pressed;
    }

    /** The corrected `check_buttons`: each button's press and release use its own timer. */
    method CheckSeparate(pressed: Pressed, t: int) returns (events: bv8)
      modifies this
      ensures (AllTimers(), events) == PollSeparate(old(AllTimers()), pressed, t)
    {
      events := 0;
      if pressed.sel && !pressedPrev.sel {
        selTime := t;
      } else if !pressed.sel && pressedPrev.sel {
        if selTime < t {
          events := events | SEL_LONG;
        } else {
          events := events | SEL;
        }
      }
      if pressed.up && !pressedPrev.up {
        upTime := t;
      } else if !pressed.up && pressedPrev.up {
        if upTime < t {
          events := events | UP_LONG;
        } else {
          events := events | UP;
        }
      }
      if pressed.down && !pressedPrev.down {
        downTime := t;
      } else if !pressed.down && pressedPrev.down {
        if downTime < t {
          events := events | DOWN_LONG;
        } else {
          events := events | DOWN;
        }
      }
      pressedPrev := pressed;
    }
  }
}
