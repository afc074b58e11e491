/** The level meter widget: a vertical bar that shows a level between a
    minimum and a maximum (in dB) in three colour zones, red above 0, yellow
    above -18 and green down to the minimum.

    Levels are modelled as reals. The rectangles the bar is drawn with are
    modelled by the range of levels each one covers (`Span`); how a span is
    turned into pixel coordinates is not modelled. */
module MeterWidget {
  import opened Toolkit

  /** The lower limits of the red and of the yellow zone. */
  const RedFloor: real := 0.0
  const YellowFloor: real := -18.0
  /** The width a freshly made meter asks for. */
  const DefaultWidth: real := 25.0

  /** The range of levels (lo, hi] that one drawn rectangle of the bar covers. */
  datatype Span = Span(lo: real, hi: real)

  /** What drawing one zone of the bar leaves: the level the next zone down
      still has to show, and the span drawn for this zone, if any. */
  datatype BarPart = BarPart(rest: real, drawn: Option<Span>)

  function Min(a: real, b: real): real
  {
    if a <= b then a else b
  }

  /** Draws the part of the bar above `lowerLimit`: nothing when the level does
      not reach above the limit, otherwise the span from the limit up to the
      level; in both cases hands on the level capped at the limit. */
  function DrawBarPart(value: real, lowerLimit: real): (r: BarPart)
    ensures r.drawn.Some? <==> lowerLimit < value
    ensures r.drawn.Some? ==> r.drawn.value == Span(lowerLimit, value)
    ensures r.rest == Min(value, lowerLimit)
  {
    if value <= lowerLimit then BarPart(value, None)
    else BarPart(lowerLimit, Some(Span(lowerLimit, value)))
  }

  /** The meter's clamp. It compares as `set_value` does: first against the
      minimum, which gives the minimum, then against the maximum, which gives
      the maximum. */
  function Clamp(v: real, lo: real, hi: real): (r: real)
    ensures lo <= hi ==> lo <= r <= hi
    ensures lo <= v <= hi ==> r == v
    ensures v < lo ==> r == lo
    ensures lo <= v && hi < v ==> r == hi
  {
    if v < lo then lo else if v > hi then hi else v
  }

  /** A clamped level is left alone by clamping it again. */
  lemma ClampIsIdempotent(v: real, lo: real, hi: real)
    requires lo <= hi
    ensures Clamp(Clamp(v, lo, hi), lo, hi) == Clamp(v, lo, hi)
  {
  }

  /** Clamping keeps the order of levels. */
  lemma ClampIsMonotone(v: real, u: real, lo: real, hi: real)
    requires lo <= hi && v <= u
    ensures Clamp(v, lo, hi) <= Clamp(u, lo, hi)
  {
  }

  /** Whether the level `x` lies in the optional span `s`. */
  predicate Covers(s: Option<Span>, x: real)
  {
    s.Some? && s.value.lo < x <= s.value.hi
  }

  /** The state a meter's factory holds: the meter's range. */
  datatype Factory = Factory(min: real, max: real)

  class Meter {
    const width: real
    var value: real
    const minValue: real
    const maxValue: real
    /** How many times the meter has asked the toolkit for a repaint. */
    var repaintRequests: nat

    /** The meter a factory makes: it starts at the bottom of its range. */
    constructor MakeWidget(factory: Factory)
      ensures width == DefaultWidth
      ensures minValue == factory.min && maxValue == factory.max
      ensures value == factory.min
      ensures repaintRequests == 0
      ensures MinSize() == Size(25.0, 50.0)
    {
      width := DefaultWidth;
      minValue := factory.min;
      maxValue := factory.max;
      value := factory.min;
      repaintRequests := 0;
    }

    /** The meter asks for a bar twice as tall as it is wide. */
    function MinSize(): (s: Size)
      reads this
      ensures s.w == width && s.h == 2.0 * s.w
    {
      Size(width, 2.0 * width)
    }

    method SetValue(v: real)
      modifies this`value, this`repaintRequests
      ensures value == Clamp(v, minValue, maxValue)
      ensures minValue <= maxValue ==> minValue <= value <= maxValue
      ensures minValue <= v <= maxValue ==> value == v
      ensures repaintRequests == old(repaintRequests) + 1
    {
      if v < minValue {
        value := minValue;
      } else if v > maxValue {
        value := maxValue;
      } else {
        value := v;
      }
      repaintRequests := repaintRequests + 1;
    }

    /** Draws the bar zone by zone, from the top down; each zone is handed the
        level the zone above it left. The result gives the span drawn in each
        zone, if any. */
    method Exposed() returns (red: Option<Span>, yellow: Option<Span>, green: Option<Span>)
      ensures red.Some? <==> value > RedFloor
      ensures yellow.Some? <==> Min(value, RedFloor) > YellowFloor
      ensures green.Some? <==> Min(Min(value, RedFloor), YellowFloor) > minValue
      ensures red.Some? ==> red.value == Span(RedFloor, value)
      ensures yellow.Some? ==> yellow.value == Span(YellowFloor, Min(value, RedFloor))
      ensures green.Some? ==> green.value == Span(minValue, Min(Min(value, RedFloor), YellowFloor))
      // no level is drawn twice
      ensures forall x :: !(Covers(red, x) && Covers(yellow, x))
      ensures forall x :: !(Covers(red, x) && Covers(green, x))
      ensures forall x :: !(Covers(yellow, x) && Covers(green, x))
      // with the minimum at or below the yellow zone, the bar shows exactly the
      // levels from the minimum up to the current level
      ensures minValue <= YellowFloor ==>
              forall x :: (Covers(red, x) || Covers(yellow, x) || Covers(green, x)) <==> minValue < x <= value
    {
      var level := value;
      var part := DrawBarPart(level, RedFloor);
      red, level := part.drawn, part.rest;
      part := DrawBarPart(level, YellowFloor);
      yellow, level := part.drawn, part.rest;
      part := DrawBarPart(level, minValue);
      green := part.drawn;
    }
  }
}
