/**
 * A straight pitch transition from (x1, y1) to (x2, y2): positions in
 * milliseconds, pitches in the curve's pitch unit. Values are exact reals, so
 * the rounding of Java's `double` arithmetic is not modelled.
 */
module Portamento {

  /**
   * All five fields are fixed when the segment is built; `slope` is computed
   * there from the two end points.
   */
  datatype LinearPortamento = LinearPortamento(x1: real, y1: real, x2: real, y2: real, slope: real)
  {
    /** The state the constructor leaves: distinct end positions and their slope. */
    ghost predicate Valid() {
      x1 != x2 && slope == (y2 - y1) / (x2 - x1)
    }

    /** Whether `positionMs` lies inside the segment's span [x1, x2]. */
    predicate Covers(positionMs: int) {
      x1 <= positionMs as real <= x2
    }

    /**
     * The pitch at `positionMs`: the point on the line inside the span, and
     * 0.0 (after logging) outside it.
     */
    function Apply(positionMs: int): real {
      if positionMs as real < x1 || positionMs as real > x2 then
        0.0
      else
        var adjustedX := positionMs as real - x1;
        slope * adjustedX + y1
    }

    function StartPitch(): real {
      y1
    }

    function EndPitch(): real {
      y2
    }
  }

  /** Builds a segment; the end positions must differ, since the slope divides by x2 - x1. */
  function NewLinearPortamento(x1: real, y1: real, x2: real, y2: real): (p: LinearPortamento)
    requires x1 != x2
    ensures p.Valid()
    ensures p.x1 == x1 && p.x2 == x2
    ensures p.StartPitch() == y1 && p.EndPitch() == y2
  {
    LinearPortamento(x1, y1, x2, y2, (y2 - y1) / (x2 - x1))
  }

  /** Two-point form of the line through (x1, y1) and (x2, y2), a reference definition. */
  function Interpolate(x1: real, y1: real, x2: real, y2: real, t: real): real
    requires x1 != x2
  {
    y1 + (y2 - y1) * (t - x1) / (x2 - x1)
  }

  function Min(a: real, b: real): real { if a <= b then a else b }

  function Max(a: real, b: real): real { if a <= b then b else a }

  /** Outside [x1, x2] the segment yields 0.0. */
  lemma ApplyOutsideSpan(p: LinearPortamento, positionMs: int)
    requires !p.Covers(positionMs)
    ensures p.Apply(positionMs) == 0.0
  {
  }

  /** Inside [x1, x2] the segment agrees with linear interpolation between its end points. */
  lemma ApplyInterpolates(p: LinearPortamento, positionMs: int)
    requires p.Valid() && p.Covers(positionMs)
    ensures p.Apply(positionMs) == Interpolate(p.x1, p.y1, p.x2, p.y2, positionMs as real)
  {
  }

  /** With whole-millisecond end points, the segment starts at y1 and ends at y2. */
  lemma ApplyAtEndPoints(p: LinearPortamento, start: int, end: int)
    requires p.Valid()
    requires p.x1 == start as real && p.x2 == end as real && start < end
    ensures p.Apply(start) == p.StartPitch()
    ensures p.Apply(end) == p.EndPitch()
  {
  }

  /** The slope times a run within the span never overshoots the rise y2 - y1. */
  lemma ScaledRiseBetween(rise: real, run: real, d: real)
    requires run > 0.0 && 0.0 <= d <= run
    ensures Min(0.0, rise) <= (rise / run) * d <= Max(0.0, rise)
  {
  }

  /** Inside its span, the pitch stays between the two end pitches. */
  lemma ApplyWithinPitchRange(p: LinearPortamento, positionMs: int)
    requires p.Valid() && p.Covers(positionMs)
    ensures Min(p.y1, p.y2) <= p.Apply(positionMs) <= Max(p.y1, p.y2)
  {
    ScaledRiseBetween(p.y2 - p.y1, p.x2 - p.x1, positionMs as real - p.x1);
  }

  /** Inside its span, the pitch moves monotonically in the direction from y1 to y2. */
  lemma ApplyMonotone(p: LinearPortamento, a: int, b: int)
    requires p.Valid() && p.Covers(a) && p.Covers(b) && a <= b
    ensures p.y1 <= p.y2 ==> p.Apply(a) <= p.Apply(b)
    ensures p.y2 <= p.y1 ==> p.Apply(b) <= p.Apply(a)
  {
  }

  /** A segment whose end lies before its start covers no position, so it always yields 0.0. */
  lemma ReversedSpanIsSilent(p: LinearPortamento, positionMs: int)
    requires p.x2 < p.x1
    ensures !p.Covers(positionMs) && p.Apply(positionMs) == 0.0
  {
  }

  /** The segment (0, 60) to (1000, 72) at its ends, its midpoint and past its end. */
  lemma ExampleSegment()
    ensures NewLinearPortamento(0.0, 60.0, 1000.0, 72.0).Apply(500) == 66.0
    ensures NewLinearPortamento(0.0, 60.0, 1000.0, 72.0).Apply(0) == 60.0
    ensures NewLinearPortamento(0.0, 60.0, 1000.0, 72.0).Apply(1000) == 72.0
    ensures NewLinearPortamento(0.0, 60.0, 1000.0, 72.0).Apply(1500) == 0.0
  {
  }
}
