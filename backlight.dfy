/**
 * The backlight controller of `ctrl_backlight`: a three-state machine
 * (viewing, not viewing, timed out) driven by the newest orientation sample
 * and the clock, which sets the display's backlight on every call that sees
 * a sample. The sensors and the clock are parameters: `samples` is what the
 * orientation sensor returned, `light` the ambient light reading (only used
 * while viewing) and `now` the clock in whole seconds.
 */
module Backlight {
  import opened Util

  /** The viewing cone: pitch `Y_ANGLE` plus or minus `Y_SPAN`, roll `Z_ANGLE` plus or minus `Z_SPAN` (degrees). */
  const Y_ANGLE: real := -30.0
  const Y_SPAN: real := 20.0
  const Z_ANGLE: real := 0.0
  const Z_SPAN: real := 10.0
  /** Samples with at least this status count as reliable. */
  const RELIABLE_THRESHOLD: int := 2
  /** Pitch change (degrees) that wakes the display from a timeout. */
  const MOVEMENT_THRESHOLD: real := 2.0
  /** Seconds the display may stay on in one viewing event. */
  const VIEW_TIMEOUT: int := 10

  datatype Sample = Sample(x: real, y: real, z: real, status: int)

  datatype ViewingState = Viewing | NotViewing | Timeout

  /** The three globals the controller keeps between calls. */
  datatype Context = Context(state: ViewingState, start: int, lastY: real)

  function Abs(r: real): real
  {
    if r < 0.0 then -r else r
  }

  /** Backlight level while viewing: a quarter of the light reading, at least 1, and full (100) above 300. */
  function Brightness(light: int): (b: int)
    ensures 1 <= b <= 100
    ensures light < 4 ==> b == 1
    ensures 4 <= light <= 300 ==> 4 * b <= light < 4 * b + 4
    ensures light > 300 ==> b == 100
  {
    var level := if light >= 4 then FloorDiv(light, 4) else 1;
    if light > 300 then 100 else level
  }

  /** More ambient light never dims the display. */
  lemma BrightnessMonotone(a: int, b: int)
    requires a <= b
    ensures Brightness(a) <= Brightness(b)
  {
  }

  predicate Reliable(s: Sample)
  {
    s.status >= RELIABLE_THRESHOLD
  }

  /** The test that leaves the viewing state: some angle strictly beyond the closed cone. */
  predicate OutsideCone(s: Sample)
  {
    s.z < Z_ANGLE - Z_SPAN || s.z > Z_ANGLE + Z_SPAN || s.y < Y_ANGLE - Y_SPAN || s.y > Y_ANGLE + Y_SPAN
  }

  /** The test that enters the viewing state: both angles strictly inside the open cone. */
  predicate InsideCone(s: Sample)
  {
    s.z > Z_ANGLE - Z_SPAN && s.z < Z_ANGLE + Z_SPAN && s.y > Y_ANGLE - Y_SPAN && s.y < Y_ANGLE + Y_SPAN
  }

  /**
   * The two cone tests never both hold, and a sample satisfies neither
   * exactly when it lies on the cone's edge: on an edge the display keeps
   * whatever state it is in.
   */
  lemma ConeHysteresis(s: Sample)
    ensures !(InsideCone(s) && OutsideCone(s))
    ensures !InsideCone(s) && !OutsideCone(s) <==>
              -10.0 <= s.z <= 10.0 && -50.0 <= s.y <= -10.0
              && (s.z == -10.0 || s.z == 10.0 || s.y == -50.0 || s.y == -10.0)
  {
  }

  /**
   * One call of `ctrl_backlight` that sees the sample `s`: the new context
   * and the level passed to the backlight.
   */
  function Next(ctx: Context, s: Sample, light: int, now: int): (Context, int)
  {
    match ctx.state
    case Viewing =>
      if now - ctx.start > VIEW_TIMEOUT then (ctx.(state := Timeout, lastY := s.y), Brightness(light))
      else if Reliable(s) && OutsideCone(s) then (ctx.(state := NotViewing), Brightness(light))
      else (ctx, Brightness(light))
    case NotViewing =>
      if !Reliable(s) || InsideCone(s) then (ctx.(state := Viewing, start := now), 0)
      else (ctx, 0)
    case Timeout =>
      if Abs(s.y - ctx.lastY) > MOVEMENT_THRESHOLD then (Context(Viewing, now, s.y), 0)
      else (ctx.(lastY := s.y), 0)
  }

  /** The display is lit exactly in the viewing state, at a level between 1 and 100; otherwise it is dark. */
  lemma NextLevel(ctx: Context, s: Sample, light: int, now: int)
    ensures var level := Next(ctx, s, light, now).1;
      0 <= level <= 100 && (level > 0 <==> ctx.state == Viewing)
  {
  }

  /**
   * From viewing: the timeout wins over the cone test and records the pitch;
   * otherwise a reliable sample outside the cone turns the display off; in
   * every other case nothing changes.
   */
  lemma NextFromViewing(ctx: Context, s: Sample, light: int, now: int)
    requires ctx.state == Viewing
    ensures var next := Next(ctx, s, light, now).0;
      && (next.state == Timeout <==> now - ctx.start > VIEW_TIMEOUT)
      && (next.state == Timeout ==> next.lastY == s.y && next.start == ctx.start)
      && (next.state == NotViewing <==> now - ctx.start <= VIEW_TIMEOUT && Reliable(s) && OutsideCone(s))
      && (next.state == NotViewing ==> next.start == ctx.start && next.lastY == ctx.lastY)
      && (next.state == Viewing ==> next == ctx)
  {
  }

  /**
   * From not viewing: an unreliable sample, or one strictly inside the
   * cone, turns the display on and starts a new viewing event now; otherwise
   * nothing changes.
   */
  lemma NextFromNotViewing(ctx: Context, s: Sample, light: int, now: int)
    requires ctx.state == NotViewing
    ensures var next := Next(ctx, s, light, now).0;
      && (next.state == Viewing <==> !Reliable(s) || InsideCone(s))
      && (next.state == Viewing ==> next.start == now && next.lastY == ctx.lastY)
      && (next.state != Viewing ==> next == ctx)
  {
  }

  /**
   * From a timeout: only a pitch change of more than the movement threshold
   * since the last sample turns the display on (whatever the sample's
   * reliability); the pitch is recorded either way.
   */
  lemma NextFromTimeout(ctx: Context, s: Sample, light: int, now: int)
    requires ctx.state == Timeout
    ensures var next := Next(ctx, s, light, now).0;
      && next.state != NotViewing
      && (next.state == Viewing <==> Abs(s.y - ctx.lastY) > MOVEMENT_THRESHOLD)
      && (next.state == Viewing ==> next.start == now)
      && (next.state == Timeout ==> next.start == ctx.start)
      && next.lastY == s.y
  {
  }

  /** Whenever a call ends in the timeout state, the recorded pitch is that call's sample's. */
  lemma TimeoutRecordsPitch(ctx: Context, s: Sample, light: int, now: int)
    requires Next(ctx, s, light, now).0.state == Timeout
    ensures Next(ctx, s, light, now).0.lastY == s.y
  {
    if ctx.state == Viewing {
      NextFromViewing(ctx, s, light, now);
    } else if ctx.state == Timeout {
      NextFromTimeout(ctx, s, light, now);
    }
  }

  /** What one call sees: the sensor's batch of samples, the light reading and the clock. */
  datatype Input = Input(samples: seq<Sample>, light: int, now: int)

  /** The sample a call acts on. */
  function Newest(input: Input): Sample
    requires input.samples != []
  {
    input.samples[|input.samples| - 1]
  }

  /**
   * One call of `ctrl_backlight`: without a sample it changes nothing and
   * leaves the backlight alone (`None`); otherwise the newest sample decides.
   */
  function Call(ctx: Context, input: Input): (Context, Option<int>)
  {
    if input.samples == [] then (ctx, None)
    else
      var (next, level) := Next(ctx, Newest(input), input.light, input.now);
      (next, Some(level))
  }

  /** The contexts after each call of a run. */
  function Contexts(ctx: Context, inputs: seq<Input>): (r: seq<Context>)
    ensures |r| == |inputs|
    decreases |inputs|
  {
    if inputs == [] then []
    else
      var next := Call(ctx, inputs[0]).0;
      [next] + Contexts(next, inputs[1..])
  }

  /**
   * A viewing event never lasts beyond the timeout: if the display stays in
   * the viewing state through a run, the event keeps its start time and no
   * call that saw a sample came more than `VIEW_TIMEOUT` seconds after it.
   */
  lemma {:induction false} ViewingBounded(ctx: Context, inputs: seq<Input>)
    requires ctx.state == Viewing
    requires forall i :: 0 <= i < |inputs| ==> Contexts(ctx, inputs)[i].state == Viewing
    ensures forall i :: 0 <= i < |inputs| ==> Contexts(ctx, inputs)[i].start == ctx.start
    ensures forall i :: 0 <= i < |inputs| && inputs[i].samples != [] ==> inputs[i].now - ctx.start <= VIEW_TIMEOUT
    decreases |inputs|
  {
    if inputs != [] {
      var cs := Contexts(ctx, inputs);
      var next := Call(ctx, inputs[0]).0;
      assert cs == [next] + Contexts(next, inputs[1..]);
      assert next.state == Viewing by { assert cs[0] == next; }
      if inputs[0].samples != [] {
        var s := Newest(inputs[0]);
        NextFromViewing(ctx, s, inputs[0].light, inputs[0].now);
      }
      assert next.start == ctx.start;
      forall i | 0 <= i < |inputs| - 1
        ensures Contexts(next, inputs[1..])[i].state == Viewing
      {
        assert cs[i + 1] == Contexts(next, inputs[1..])[i];
      }
      ViewingBounded(next, inputs[1..]);
      forall i | 0 <= i < |inputs|
        ensures cs[i].start == ctx.start
        ensures inputs[i].samples != [] ==> inputs[i].now - ctx.start <= VIEW_TIMEOUT
      {
        if i > 0 {
          assert cs[i] == Contexts(next, inputs[1..])[i - 1];
          assert inputs[i] == inputs[1..][i - 1];
        }
      }
    }
  }

  /**
   * Slow drift: every call sees a sample whose pitch is within the movement
   * threshold of the previous call's sample (of `lastY` for the first call).
   */
  predicate SlowDrift(lastY: real, inputs: seq<Input>)
    decreases |inputs|
  {
    inputs == [] ||
      (inputs[0].samples != [] && Abs(Newest(inputs[0]).y - lastY) <= MOVEMENT_THRESHOLD
       && SlowDrift(Newest(inputs[0]).y, inputs[1..]))
  }

  /**
   * Under slow drift a timed-out display stays timed out (and dark),
   * however far the pitch travels in total, tracking each new pitch.
   */
  lemma {:induction false} SlowDriftStaysDark(ctx: Context, inputs: seq<Input>)
    requires ctx.state == Timeout
    requires SlowDrift(ctx.lastY, inputs)
    ensures forall i :: 0 <= i < |inputs| ==> Contexts(ctx, inputs)[i].state == Timeout
    ensures forall i :: 0 <= i < |inputs| ==> inputs[i].samples != []
    ensures forall i :: 0 <= i < |inputs| ==> Contexts(ctx, inputs)[i].lastY == Newest(inputs[i]).y
    decreases |inputs|
  {
    if inputs != [] {
      var cs := Contexts(ctx, inputs);
      var s := Newest(inputs[0]);
      var next := Call(ctx, inputs[0]).0;
      NextFromTimeout(ctx, s, inputs[0].light, inputs[0].now);
      assert cs == [next] + Contexts(next, inputs[1..]);
      assert next.state == Timeout && next.lastY == s.y;
      var rest := inputs[1..];
      SlowDriftStaysDark(next, rest);
      forall i | 0 <= i < |inputs|
        ensures inputs[i].samples != []
        ensures cs[i].state == Timeout && cs[i].lastY == Newest(inputs[i]).y
      {
        if i > 0 {
          assert cs[i] == Contexts(next, rest)[i - 1];
          assert inputs[i] == rest[i - 1];
        }
      }
    }
  }

  /**
   * A concrete drift: three calls moving the pitch by 2 degrees each leave
   * the display timed out, although it ends 6 degrees from where the
   * timeout began.
   */
  lemma DriftExample()
    ensures var inputs := [Input([Sample(0.0, 2.0, 0.0, 3)], 0, 20),
                           Input([Sample(0.0, 4.0, 0.0, 3)], 0, 21),
                           Input([Sample(0.0, 6.0, 0.0, 3)], 0, 22)];
      Contexts(Context(Timeout, 0, 0.0), inputs)[2] == Context(Timeout, 0, 6.0)
  {
    var inputs := [Input([Sample(0.0, 2.0, 0.0, 3)], 0, 20),
                   Input([Sample(0.0, 4.0, 0.0, 3)], 0, 21),
                   Input([Sample(0.0, 6.0, 0.0, 3)], 0, 22)];
    SlowDriftStaysDark(Context(Timeout, 0, 0.0), inputs);
  }

  /** The controller's globals, `viewing_state`, `viewing_event_start_time` and `last_y_angle`. */
  class Controller {
    var state: ViewingState
    var start: int
    var lastY: real

    function Ctx(): Context
      reads this
    {
      Context(state, start, lastY)
    }

    /** Module load: viewing, with the event started at load time and the pitch 0. */
    constructor (now: int)
      ensures Ctx() == Context(Viewing, now, 0.0)
    {
      state := Viewing;
      start := now;
      lastY := 0.0;
    }

    /**
     * `ctrl_backlight`: returns the level given to the backlight, or `None`
     * when the sensor returned no sample and the backlight was not touched.
     */
    method Step(samples: seq<Sample>, light: int, now: int) returns (level: Option<int>)
      modifies this
      ensures (Ctx(), level) == Call(old(Ctx()), Input(samples, light, now))
    {
      level := None;
      if samples != [] {
        var sample := Newest(Input(samples, light, now));
        if state == Viewing {
          level := Some(Brightness(light));
          if now - start > VIEW_TIMEOUT {
            state := Timeout;
            lastY := sample.y;
          } else if sample.status >= RELIABLE_THRESHOLD {
            if OutsideCone(sample) {
              state := NotViewing;
            }
          }
        } else if state == NotViewing {
          level := Some(0);
          if sample.status < RELIABLE_THRESHOLD {
            state := Viewing;
            start := now;
          } else if InsideCone(sample) {
            state := Viewing;
            start := now;
          }
        } else {
          level := Some(0);
          if Abs(sample.y - lastY) > MOVEMENT_THRESHOLD {
            state := Viewing;
            start := now;
          }
          lastY := sample.y;
        }
      }
    }
  }
}
