/**
 * The settings state machine: the global `MODE`, switched by the button
 * events of a poll, and the clock adjustments requested through `modTime`
 * while a field is being changed. `CTRL_FNS` dispatches the events to the
 * control function of the current mode.
 */
module Settings {
  import opened Util
  import opened Buttons

  /** The values of `MODE`, 0 (`DISPLAY`) to 6 (`CHANGE_DAY`) in declaration order. */
  datatype Mode = Display | ChangeHours | ChangeMinutes | ChangeSeconds | ChangeYear | ChangeMonth | ChangeDay

  /** The arguments of one `modTime` call: amounts added to each field of the local time. */
  datatype Adjustment = Adjustment(years: int, months: int, days: int, hours: int, minutes: int, seconds: int)

  const NoAdjustment := Adjustment(0, 0, 0, 0, 0, 0)

  /** The mode a short select press moves to: hours, minutes, seconds, year, month, day, and back to hours. */
  function Successor(m: Mode): Mode
    requires m != Display
  {
    match m
    case ChangeHours => ChangeMinutes
    case ChangeMinutes => ChangeSeconds
    case ChangeSeconds => ChangeYear
    case ChangeYear => ChangeMonth
    case ChangeMonth => ChangeDay
    case ChangeDay => ChangeHours
  }

  /** The adjustment that moves the field a change mode edits by `k` and leaves the others. */
  function Along(m: Mode, k: int): Adjustment
    requires m != Display
  {
    match m
    case ChangeHours => NoAdjustment.(hours := k)
    case ChangeMinutes => NoAdjustment.(minutes := k)
    case ChangeSeconds => NoAdjustment.(seconds := k)
    case ChangeYear => NoAdjustment.(years := k)
    case ChangeMonth => NoAdjustment.(months := k)
    case ChangeDay => NoAdjustment.(days := k)
  }

  function Add(a: Adjustment, b: Adjustment): Adjustment
  {
    Adjustment(a.years + b.years, a.months + b.months, a.days + b.days,
               a.hours + b.hours, a.minutes + b.minutes, a.seconds + b.seconds)
  }

  /** The sum of a list of adjustments. */
  function Total(adjs: seq<Adjustment>): Adjustment
  {
    if adjs == [] then NoAdjustment else Add(adjs[0], Total(adjs[1..]))
  }

  predicate Has(bs: bv8, bit: bv8)
  {
    bs & bit != 0
  }

  /** The mode after the control function of `m` has seen the events `bs`. */
  function NextMode(m: Mode, bs: bv8): Mode
  {
    if m == Display then
      if Has(bs, SEL_LONG) then ChangeHours else Display
    else
      var afterLong := if Has(bs, SEL_LONG) then Display else m;
      if Has(bs, SEL) then Successor(m) else afterLong
  }

  /** The `modTime` calls the control function of `m` makes for the events `bs`, in order. */
  function Requests(m: Mode, bs: bv8): seq<Adjustment>
  {
    if m == Display then [] else Moves(m, Ups(bs), Downs(bs))
  }

  /** A change mode's requests: one step up if `up`, then one step down if `down`. */
  function Moves(m: Mode, up: bool, down: bool): seq<Adjustment>
    requires m != Display
  {
    (if up then [Along(m, 1)] else []) + (if down then [Along(m, -1)] else [])
  }

  /** An up release, short or long. */
  predicate Ups(bs: bv8)
  {
    Has(bs, UP) || Has(bs, UP_LONG)
  }

  /** A down release, short or long. */
  predicate Downs(bs: bv8)
  {
    Has(bs, DOWN) || Has(bs, DOWN_LONG)
  }

  /**
   * In the display mode only a long select press does anything: it enters
   * the hours setting; no adjustment is ever requested there.
   */
  lemma DisplayMode(bs: bv8)
    ensures NextMode(Display, bs) == ChangeHours <==> Has(bs, SEL_LONG)
    ensures NextMode(Display, bs) == Display <==> !Has(bs, SEL_LONG)
    ensures Requests(Display, bs) == []
  {
  }

  /**
   * In a change mode a short select press moves to the next field (winning
   * over a long one in the same events), a long press alone returns to the
   * display, and otherwise the mode stays.
   */
  lemma ChangeMode(m: Mode, bs: bv8)
    requires m != Display
    ensures NextMode(m, bs) == Successor(m) <==> Has(bs, SEL)
    ensures NextMode(m, bs) == Display <==> Has(bs, SEL_LONG) && !Has(bs, SEL)
    ensures NextMode(m, bs) == m <==> !Has(bs, SEL) && !Has(bs, SEL_LONG)
  {
    SuccessorMoves(m);
  }

  /** A short select press always changes the mode, and never back to the display. */
  lemma SuccessorMoves(m: Mode)
    requires m != Display
    ensures Successor(m) != m && Successor(m) != Display
  {
  }

  /**
   * The events of one poll never hold both select bits, so in a change mode
   * a long select release always returns to the display.
   */
  lemma LongSelectReturns(st: PollState, p: Pressed, t: int, m: Mode)
    requires m != Display
    requires Has(Poll(st, p, t).1, SEL_LONG)
    ensures NextMode(m, Poll(st, p, t).1) == Display
  {
    PollEvents(st, p, t);
    var e := Poll(st, p, t).1;
    assert e & SEL == 0 by {
      assert e & (SEL | SEL_LONG) != SEL | SEL_LONG;
    }
    ChangeMode(m, e);
  }

  /** The same holds for the corrected poll with a timer per button. */
  lemma LongSelectReturnsSeparate(st: Timers, p: Pressed, t: int, m: Mode)
    requires m != Display
    requires Has(PollSeparate(st, p, t).1, SEL_LONG)
    ensures NextMode(m, PollSeparate(st, p, t).1) == Display
  {
    SeparateTimersLong(st, p, t);
    ChangeMode(m, PollSeparate(st, p, t).1);
  }

  /** The mode after `k` short select presses. */
  function Selects(m: Mode, k: nat): Mode
    requires m != Display
    ensures Selects(m, k) != Display
  {
    if k == 0 then m else Successor(Selects(m, k - 1))
  }

  /**
   * Short select presses cycle through the six fields in the order hours,
   * minutes, seconds, year, month, day, and the sixth press returns to the
   * field it started from.
   */
  lemma SelectCycle(m: Mode)
    requires m != Display
    ensures [Selects(ChangeHours, 0), Selects(ChangeHours, 1), Selects(ChangeHours, 2),
             Selects(ChangeHours, 3), Selects(ChangeHours, 4), Selects(ChangeHours, 5)]
            == [ChangeHours, ChangeMinutes, ChangeSeconds, ChangeYear, ChangeMonth, ChangeDay]
    ensures Selects(m, 6) == m
  {
    assert Selects(m, 6) == Successor(Successor(Successor(Successor(Successor(Successor(m))))));
  }

  /** A single adjustment sums to itself. */
  lemma TotalSingle(a: Adjustment)
    ensures Total([a]) == a
  {
    assert [a][1..] == [];
  }

  /** At most one move of the field: by `k` if present, else nothing. */
  lemma TotalOptional(m: Mode, present: bool, k: int)
    requires m != Display
    ensures Total(if present then [Along(m, k)] else []) == Along(m, if present then k else 0)
  {
    if present {
      TotalSingle(Along(m, k));
    }
  }

  /**
   * The requests of one call move only the field its mode edits: by one for
   * an up release, by minus one for a down release, so both together cancel.
   */
  lemma MovesNet(m: Mode, up: bool, down: bool)
    requires m != Display
    ensures |Moves(m, up, down)| == Bit(up) + Bit(down)
    ensures Total(Moves(m, up, down)) == Along(m, Bit(up) - Bit(down))
  {
    var ups: seq<Adjustment> := if up then [Along(m, 1)] else [];
    var downs: seq<Adjustment> := if down then [Along(m, -1)] else [];
    var u: int, dn: int := Bit(up), Bit(down);
    TotalOptional(m, up, 1);
    assert Total(ups) == Along(m, u);
    TotalOptional(m, down, -1);
    assert Total(downs) == Along(m, -dn);
    calc {
      Total(Moves(m, up, down));
      Total(ups + downs);
      { TotalConcat(ups, downs); }
      Add(Total(ups), Total(downs));
      Add(Along(m, u), Along(m, -dn));
      { AlongAdd(m, u, -dn); }
      Along(m, u - dn);
    }
  }

  /** Moves of the same field add up. */
  lemma AlongAdd(m: Mode, j: int, k: int)
    requires m != Display
    ensures Add(Along(m, j), Along(m, k)) == Along(m, j + k)
  {
  }

  /** The mode after a run of control calls. */
  function FinalMode(m: Mode, events: seq<bv8>): Mode
    decreases |events|
  {
    if events == [] then m else FinalMode(NextMode(m, events[0]), events[1..])
  }

  /** All adjustments a run of control calls requests, in order. */
  function Adjustments(m: Mode, events: seq<bv8>): seq<Adjustment>
    decreases |events|
  {
    if events == [] then [] else Requests(m, events[0]) + Adjustments(NextMode(m, events[0]), events[1..])
  }

  /** Up releases minus down releases over a run. */
  function NetUps(events: seq<bv8>): int
  {
    if events == [] then 0
    else
      Bit(Ups(events[0])) - Bit(Downs(events[0])) + NetUps(events[1..])
  }

  /** The sum of a concatenation is the sum of the sums. */
  lemma {:induction false} TotalConcat(a: seq<Adjustment>, b: seq<Adjustment>)
    ensures Total(a + b) == Add(Total(a), Total(b))
    decreases |a|
  {
    if a == [] {
      assert a + b == b;
    } else {
      assert (a + b)[1..] == a[1..] + b;
      TotalConcat(a[1..], b);
    }
  }

  /** While no select event arrives, a change mode stays. */
  lemma {:induction false} RunKeepsMode(m: Mode, events: seq<bv8>)
    requires m != Display
    requires forall i :: 0 <= i < |events| ==> !Has(events[i], SEL) && !Has(events[i], SEL_LONG)
    ensures FinalMode(m, events) == m
    decreases |events|
  {
    if events != [] {
      var e, rest := events[0], events[1..];
      ChangeMode(m, e);
      assert forall i :: 0 <= i < |rest| ==> rest[i] == events[i + 1];
      RunKeepsMode(m, rest);
    }
  }

  /** Two runs of moves of one field add up. */
  lemma TotalStep(m: Mode, now: seq<Adjustment>, later: seq<Adjustment>, a: int, b: int)
    requires m != Display
    requires Total(now) == Along(m, a) && Total(later) == Along(m, b)
    ensures Total(now + later) == Along(m, a + b)
  {
    TotalConcat(now, later);
    AlongAdd(m, a, b);
  }

  /** The first call of a run in a change mode without select events: its moves, then the rest of the run. */
  lemma RunStep(m: Mode, events: seq<bv8>)
    requires m != Display && events != []
    requires !Has(events[0], SEL) && !Has(events[0], SEL_LONG)
    ensures Adjustments(m, events) == Moves(m, Ups(events[0]), Downs(events[0])) + Adjustments(m, events[1..])
    ensures NetUps(events) == Bit(Ups(events[0])) - Bit(Downs(events[0])) + NetUps(events[1..])
  {
    ChangeMode(m, events[0]);
  }

  /**
   * While no select event arrives, the adjustments of a whole run add up to
   * a move of the mode's field by the up releases minus the down releases.
   */
  lemma {:induction false} RunTotal(m: Mode, events: seq<bv8>)
    requires m != Display
    requires forall i :: 0 <= i < |events| ==> !Has(events[i], SEL) && !Has(events[i], SEL_LONG)
    ensures Total(Adjustments(m, events)) == Along(m, NetUps(events))
    decreases |events|
  {
    if events == [] {
      assert Total([]) == Along(m, 0);
    } else {
      var e, rest := events[0], events[1..];
      assert forall i :: 0 <= i < |rest| ==> rest[i] == events[i + 1];
      RunTotal(m, rest);
      RunStep(m, events);
      MovesNet(m, Ups(e), Downs(e));
      TotalStep(m, Moves(m, Ups(e), Downs(e)), Adjustments(m, rest), Bit(Ups(e)) - Bit(Downs(e)), NetUps(rest));
    }
  }

  /** The globals `MODE` and, standing for the clock, the `modTime` calls made so far. */
  class Controls {
    var mode: Mode
    var requests: seq<Adjustment>

    /** Module load: the display mode, no adjustment made. */
    constructor ()
      ensures mode == Display && requests == []
    {
      mode := Display;
      requests := [];
    }

    /** `modTime`: the clock is moved by `a` (the calendar arithmetic is not modelled). */
    method ModTime(a: Adjustment)
      modifies this
      ensures mode == old(mode) && requests == old(requests) + [a]
    {
      requests := requests + [a];
    }

    /** `ctrl_display` */
    method CtrlDisplay(bs: bv8)
      modifies this
      ensures mode == (if Has(bs, SEL_LONG) then ChangeHours else old(mode))
      ensures requests == old(requests)
    {
      if bs & SEL_LONG != 0 {
        mode := ChangeHours;
      }
    }

    /** `ctrl_chg_hrs` to `ctrl_chg_day`: the control function of the change mode `own`. */
    method CtrlChange(own: Mode, bs: bv8)
      requires own != Display
      modifies this
      ensures mode == (if Has(bs, SEL) then Successor(own) else if Has(bs, SEL_LONG) then Display else old(mode))
      ensures requests == old(requests) + Requests(own, bs)
    {
      if bs & SEL_LONG != 0 {
        mode := Display;
      }
      if bs & SEL != 0 {
        mode := Successor(own);
      }
      if bs & UP != 0 || bs & UP_LONG != 0 {
        ModTime(Along(own, 1));
      }
      if bs & DOWN != 0 || bs & DOWN_LONG != 0 {
        ModTime(Along(own, -1));
      }
    }

    /** `CTRL_FNS[MODE](bs)`: the control function of the current mode. */
    method Control(bs: bv8)
      modifies this
      ensures mode == NextMode(old(mode), bs)
      ensures requests == old(requests) + Requests(old(mode), bs)
    {
      if mode == Display {
        CtrlDisplay(bs);
      } else {
        CtrlChange(mode, bs);
      }
    }
  }
}
