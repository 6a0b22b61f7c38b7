/**
  Model of components/upload/TrimTool.tsx: the local `start`/`end` pair of the trim
  range, its clamping handlers and its resynchronisation with the props.

  Times are `real` seconds. `onTrimChange` is modelled as the pair a handler returns.
  The resynchronising effect schedules a zero-delay timeout; `ResyncFromProps` is that
  timeout running.
 */
module Trim {
  import opened Wrappers

  function Max(a: real, b: real): real {
    if a >= b then a else b
  }

  function Min(a: real, b: real): real {
    if a <= b then a else b
  }

  /** `Math.max(0, Math.min(value, end - 1))`. */
  function ClampStart(value: real, end: real): (r: real)
    ensures 0.0 <= r
    ensures end >= 1.0 ==> r <= end - 1.0
    ensures end < 1.0 ==> r == 0.0
    ensures 0.0 <= value <= end - 1.0 ==> r == value
  {
    Max(0.0, Min(value, end - 1.0))
  }

  /** `Math.max(start + 1, Math.min(value, duration))`. */
  function ClampEnd(value: real, start: real, duration: real): (r: real)
    ensures start + 1.0 <= r
    ensures start + 1.0 <= duration ==> r <= duration
    ensures start + 1.0 > duration ==> r == start + 1.0
    ensures start + 1.0 <= value <= duration ==> r == value
  {
    Max(start + 1.0, Min(value, duration))
  }

  function Abs(x: real): real {
    if x >= 0.0 then x else -x
  }

  /** Within [0, end - 1] the new start is the point closest to the requested one. */
  lemma ClampStartIsNearest(value: real, end: real, x: real)
    requires end >= 1.0 && 0.0 <= x <= end - 1.0
    ensures Abs(ClampStart(value, end) - value) <= Abs(x - value)
  {
  }

  /** Within [start + 1, duration] the new end is the point closest to the requested one. */
  lemma ClampEndIsNearest(value: real, start: real, duration: real, x: real)
    requires start + 1.0 <= x <= duration
    ensures Abs(ClampEnd(value, start, duration) - value) <= Abs(x - value)
  {
  }

  /** Clamping a clamped value changes nothing. */
  lemma ClampsIdempotent(value: real, start: real, end: real, duration: real)
    ensures ClampStart(ClampStart(value, end), end) == ClampStart(value, end)
    ensures ClampEnd(ClampEnd(value, start, duration), start, duration) == ClampEnd(value, start, duration)
  {
  }

  /** `trimEnd || duration`, the initial `end`: a zero `trimEnd` is falsy. */
  function InitialEnd(trimEnd: Option<real>, duration: real): real {
    if trimEnd.None? || trimEnd.value == 0.0 then duration else trimEnd.value
  }

  /** With a non-zero duration, `trimEnd || duration` is never 0: a zero `trimEnd` is replaced. */
  lemma InitialEndNonZero(trimEnd: Option<real>, duration: real)
    requires duration != 0.0
    ensures InitialEnd(trimEnd, duration) != 0.0
  {
  }

  /** `trimEnd ?? duration`, the `end` the effect resynchronises to. */
  function TargetEnd(trimEnd: Option<real>, duration: real): real {
    if trimEnd.None? then duration else trimEnd.value
  }

  /** The two defaults disagree exactly on a zero `trimEnd` with a non-zero duration. */
  lemma DefaultsDisagreeOnZero(trimEnd: Option<real>, duration: real)
    ensures InitialEnd(trimEnd, duration) != TargetEnd(trimEnd, duration)
        <==> trimEnd == Some(0.0) && duration != 0.0
  {
  }

  /** The range after a handler and the props it reports; `start` and `end` are the local state. */
  datatype Range = Range(start: real, end: real)

  function StartChanged(r: Range, value: real): Range {
    Range(ClampStart(value, r.end), r.end)
  }

  function EndChanged(r: Range, value: real, duration: real): Range {
    Range(r.start, ClampEnd(value, r.start, duration))
  }

  /** The range the effect resynchronises to. */
  function Target(trimStart: Option<real>, trimEnd: Option<real>, duration: real): Range {
    Range(trimStart.GetOr(0.0), TargetEnd(trimEnd, duration))
  }

  /**
    A handler leaves at least one second selected (for the start handler: whenever the
    end is at least one second in), and never moves the other end of the range.
   */
  lemma HandlersKeepOneSecond(r: Range, value: real, duration: real)
    ensures EndChanged(r, value, duration).end - EndChanged(r, value, duration).start >= 1.0
    ensures EndChanged(r, value, duration).start == r.start
    ensures r.end >= 1.0 ==> StartChanged(r, value).end - StartChanged(r, value).start >= 1.0
    ensures StartChanged(r, value).end == r.end
  {
  }

  /**
    When the parent stores what a handler reported and passes it back as props, the
    effect finds nothing to resynchronise.
   */
  lemma EchoedReportIsStable(r: Range, value: real, duration: real)
    ensures var s := StartChanged(r, value);
      Target(Some(s.start), Some(s.end), duration) == s
    ensures var e := EndChanged(r, value, duration);
      Target(Some(e.start), Some(e.end), duration) == e
  {
  }

  /**
    Mounted with a zero `trimEnd`, the tool first shows the whole video and then the
    effect collapses the range to end at 0.
   */
  lemma ZeroTrimEndCollapses(duration: real)
    requires duration > 0.0
    ensures var mounted := Range(0.0, InitialEnd(Some(0.0), duration));
      mounted.end == duration
      && Target(None, Some(0.0), duration) == Range(0.0, 0.0)
  {
  }

  // ---------------------------------------------------------------- the component

  class TrimTool {
    // props
    var duration: real
    var trimStart: Option<real>
    var trimEnd: Option<real>
    // local state
    var start: real
    var end: real

    function Current(): Range
      reads this
    {
      Range(start, end)
    }

    /** What the trim label shows: `end - start`. */
    function TrimmedDuration(): real
      reads this
    {
      end - start
    }

    constructor (duration: real, trimStart: Option<real>, trimEnd: Option<real>)
      ensures this.duration == duration && this.trimStart == trimStart && this.trimEnd == trimEnd
      ensures Current() == Range(trimStart.GetOr(0.0), InitialEnd(trimEnd, duration))
    {
      this.duration := duration;
      this.trimStart := trimStart;
      this.trimEnd := trimEnd;
      start := trimStart.GetOr(0.0);
      end := if trimEnd.None? || trimEnd.value == 0.0 then duration else trimEnd.value;
    }

    /** The parent renders the tool with new props. */
    method ReceiveProps(duration: real, trimStart: Option<real>, trimEnd: Option<real>)
      modifies this
      ensures this.duration == duration && this.trimStart == trimStart && this.trimEnd == trimEnd
      ensures Current() == old(Current())
    {
      this.duration := duration;
      this.trimStart := trimStart;
      this.trimEnd := trimEnd;
    }

    /** `handleStartChange(value)`; returns the pair passed to `onTrimChange`. */
    method HandleStartChange(value: real) returns (reported: Range)
      modifies this
      ensures Current() == StartChanged(old(Current()), value) && reported == Current()
      ensures unchanged(this`duration, this`trimStart, this`trimEnd)
      ensures old(end) >= 1.0 ==> TrimmedDuration() >= 1.0
    {
      var newStart := Max(0.0, Min(value, end - 1.0));
      start := newStart;
      reported := Range(newStart, end);
    }

    /** `handleEndChange(value)`; returns the pair passed to `onTrimChange`. */
    method HandleEndChange(value: real) returns (reported: Range)
      modifies this
      ensures Current() == EndChanged(old(Current()), value, duration) && reported == Current()
      ensures unchanged(this`duration, this`trimStart, this`trimEnd)
      ensures TrimmedDuration() >= 1.0
    {
      var newEnd := Max(start + 1.0, Min(value, duration));
      end := newEnd;
      reported := Range(start, newEnd);
    }

    /** The effect's timeout: copy the props into the local state when they differ. */
    method ResyncFromProps()
      modifies this
      ensures Current() == Target(trimStart, trimEnd, duration)
      ensures unchanged(this`duration, this`trimStart, this`trimEnd)
    {
      var targetStart := trimStart.GetOr(0.0);
      var targetEnd := if trimEnd.None? then duration else trimEnd.value;
      if start == targetStart && end == targetEnd {
        return;
      }
      start := targetStart;
      end := targetEnd;
    }
  }
}
