/**
 * The multi-point slider: a list of point values on a horizontal track, an
 * optional selected point, and the pointer handlers that add, select, drag
 * and remove points.  Pixel and value coordinates are exact reals.
 */
module Slider {
  import opened Wrappers

  /** Pixels left free on each side of the track. */
  const LeftMargin: real := 10.0
  const RightMargin: real := 10.0
  /** A press hits a point when it lands strictly closer than this, in pixels. */
  const Threshold: real := 5.0

  function Abs(r: real): real { if r < 0.0 then -r else r }

  /** The geometry of the widget: its pixel width and its value range. */
  datatype Track = Track(width: real, minValue: real, maxValue: real) {
    /** The mapping divides by the track length and by the value range. */
    predicate Proper() {
      width > LeftMargin + RightMargin && minValue < maxValue
    }

    /** Pixel length of the drawn track. */
    function Span(): real { width - LeftMargin - RightMargin }

    /** Pixel x to value space: the left end of the track is the minimum, the right end the maximum. */
    function ScaledX(x: real): (r: real)
      requires Proper()
      ensures x == LeftMargin ==> r == minValue
      ensures x == width - RightMargin ==> r == maxValue
    {
      minValue + (x - LeftMargin) / Span() * (maxValue - minValue)
    }

    /** Value space to pixel x: the minimum is drawn at the left end of the track, the maximum at the right end. */
    function DenormalizedX(v: real): (r: real)
      requires Proper()
      ensures v == minValue ==> r == LeftMargin
      ensures v == maxValue ==> r == width - RightMargin
    {
      LeftMargin + (v - minValue) / (maxValue - minValue) * Span()
    }

    /** A point of value `v` is hit by a press at pixel `x`. */
    predicate Hits(v: real, x: real)
      requires Proper()
    {
      Abs(DenormalizedX(v) - x) < Threshold
    }
  }

  /** The first index at or after `i` whose point is hit by `x`. */
  function FirstHitFrom(t: Track, points: seq<real>, x: real, i: nat): (r: Option<nat>)
    requires t.Proper() && i <= |points|
    ensures r.Some? ==> i <= r.value < |points| && t.Hits(points[r.value], x)
    ensures r.Some? ==> forall j :: i <= j < r.value ==> !t.Hits(points[j], x)
    ensures r.None? <==> forall j :: i <= j < |points| ==> !t.Hits(points[j], x)
    decreases |points| - i
  {
    if i == |points| then None
    else if t.Hits(points[i], x) then Some(i)
    else FirstHitFrom(t, points, x, i + 1)
  }

  /** First-match hit test: the lowest index hit, not the nearest point. */
  function FirstHit(t: Track, points: seq<real>, x: real): (r: Option<nat>)
    requires t.Proper()
    ensures r.Some? ==> r.value < |points| && t.Hits(points[r.value], x)
    ensures r.Some? ==> forall j :: 0 <= j < r.value ==> !t.Hits(points[j], x)
    ensures r.None? <==> forall j :: 0 <= j < |points| ==> !t.Hits(points[j], x)
  {
    FirstHitFrom(t, points, x, 0)
  }

  /** `max(lo, min(hi, v))`. */
  function Clamp(lo: real, hi: real, v: real): (r: real)
    requires lo <= hi
    ensures lo <= r <= hi
    ensures lo <= v <= hi ==> r == v
    ensures v < lo ==> r == lo
    ensures hi < v ==> r == hi
  {
    var m := if v < hi then v else hi;
    if lo < m then m else lo
  }

  /** The list with entry `i` popped out. */
  function RemoveAt(s: seq<real>, i: nat): (r: seq<real>)
    requires i < |s|
    ensures |r| == |s| - 1
    ensures forall j :: 0 <= j < i ==> r[j] == s[j]
    ensures forall j :: i <= j < |r| ==> r[j] == s[j + 1]
    ensures multiset(r) + multiset{s[i]} == multiset(s)
  {
    assert s == s[..i] + [s[i]] + s[i + 1..];
    s[..i] + s[i + 1..]
  }

  datatype Button = LeftButton | RightButton | OtherButton

  class MultiSlider {
    /** Widget width in pixels; only the toolkit resizes it. */
    var width: real
    const minValue: real
    const maxValue: real
    /** Point values in insertion order. */
    var points: seq<real>
    /** Index of the point being dragged, if any. */
    var selected: Option<nat>

    function Geometry(): Track
      reads this
    {
      Track(width, minValue, maxValue)
    }

    /** The selection is none or an index into `points`. */
    ghost predicate Valid()
      reads this
    {
      Geometry().Proper() && (selected.Some? ==> selected.value < |points|)
    }

    constructor (minValue: real := 0.0, maxValue: real := 1.0, width: real)
      requires minValue < maxValue && LeftMargin + RightMargin < width
      ensures Valid()
      ensures this.minValue == minValue && this.maxValue == maxValue && this.width == width
      ensures points == [] && selected == None
    {
      this.minValue := minValue;
      this.maxValue := maxValue;
      this.width := width;
      points := [];
      selected := None;
    }

    /** Scans the points in order and returns the first one hit by `x`. */
    method IsOnPoint(x: real) returns (hit: Option<nat>)
      requires Valid()
      ensures hit == FirstHit(Geometry(), points, x)
      ensures hit.Some? ==> hit.value < |points|
    {
      var i := 0;
      while i < |points|
        invariant 0 <= i <= |points|
        invariant FirstHitFrom(Geometry(), points, x, i) == FirstHit(Geometry(), points, x)
      {
        if Geometry().Hits(points[i], x) {
          return Some(i);
        }
        i := i + 1;
      }
      return None;
    }

    /**
     * Left press selects the point hit, or appends the (unclamped) value of
     * `x` and selects it; right press pops the point hit and clears the
     * selection; any other button only selects the point hit.
     */
    method MousePress(button: Button, x: real)
      requires Valid()
      modifies this`points, this`selected
      ensures Valid()
      ensures var hit := FirstHit(Geometry(), old(points), x);
        match button
        case LeftButton =>
          if hit.Some? then points == old(points) && selected == hit
          else points == old(points) + [Geometry().ScaledX(x)] && selected == Some(|old(points)|)
        case RightButton =>
          selected == None &&
          points == (if hit.Some? then RemoveAt(old(points), hit.value) else old(points))
        case OtherButton =>
          points == old(points) && selected == hit
    {
      selected := IsOnPoint(x);
      if button == LeftButton {
        if selected.None? {
          points := points + [Geometry().ScaledX(x)];
          selected := Some(|points| - 1);
        }
      } else if button == RightButton {
        if selected.Some? {
          points := RemoveAt(points, selected.value);
          selected := None;
        }
      }
    }

    /** Drags the selected point to `x`, clamped into the value range. */
    method MouseMove(x: real)
      requires Valid()
      modifies this`points
      ensures Valid()
      ensures selected.Some? ==>
        points == old(points)[selected.value := Clamp(minValue, maxValue, Geometry().ScaledX(x))]
      ensures selected.None? ==> points == old(points)
    {
      if selected.Some? {
        var newValue := Geometry().ScaledX(x);
        points := points[selected.value := Clamp(minValue, maxValue, newValue)];
      }
    }

    /** Ends the gesture: clears the selection, keeps the points. */
    method MouseRelease()
      requires Valid()
      modifies this`selected
      ensures Valid()
      ensures selected == None && points == old(points)
    {
      selected := None;
    }

    method GetSelectedValue() returns (v: real)
      requires Valid() && selected.Some?
      ensures v == points[selected.value]
    {
      v := points[selected.value];
    }
  }

  /** The two mappings are inverse to each other. */
  lemma ScaleRoundTrip(t: Track, x: real, v: real)
    requires t.Proper()
    ensures t.DenormalizedX(t.ScaledX(x)) == x
    ensures t.ScaledX(t.DenormalizedX(v)) == v
  {
    var s, w := t.Span(), t.maxValue - t.minValue;
    var a := (x - LeftMargin) / s;
    var p := t.ScaledX(x);
    Cancel(x - LeftMargin, s);
    Cancel(a, w);
    assert p - t.minValue == a * w;
    assert (p - t.minValue) / w == a;
    assert t.DenormalizedX(p) == LeftMargin + a * s;
    var b := (v - t.minValue) / w;
    var d := t.DenormalizedX(v);
    Cancel(v - t.minValue, w);
    Cancel(b, s);
    assert d - LeftMargin == b * s;
    assert (d - LeftMargin) / s == b;
    assert t.ScaledX(d) == t.minValue + b * w;
  }

  lemma Cancel(a: real, b: real)
    requires b != 0.0
    ensures a / b * b == a && a * b / b == a
  {
  }

  /** Pixel to value is strictly increasing. */
  lemma ScaledXMonotone(t: Track, x: real, y: real)
    requires t.Proper()
    ensures x < y <==> t.ScaledX(x) < t.ScaledX(y)
  {
    var s, w := t.Span(), t.maxValue - t.minValue;
    assert t.ScaledX(y) - t.ScaledX(x) == (y - x) / s * w;
    MulPositive((y - x) / s, w);
    MulPositive((x - y) / s, w);
  }

  lemma MulPositive(a: real, b: real)
    requires b > 0.0
    ensures a > 0.0 <==> a * b > 0.0
  {
  }

  /**
   * A press lands on a value inside the range exactly when it lands on the
   * drawn track, so a press in a margin stores a value outside the range.
   */
  lemma ScaledXInRange(t: Track, x: real)
    requires t.Proper()
    ensures t.minValue <= t.ScaledX(x) <= t.maxValue <==> LeftMargin <= x <= t.width - RightMargin
  {
    ScaledXMonotone(t, LeftMargin, x);
    ScaledXMonotone(t, x, t.width - RightMargin);
  }

  /**
   * First match, not nearest: two points 2 pixels apart, a press nearer the
   * second one, and the first one is reported.
   */
  lemma FirstMatchNotNearest()
    ensures var t := Track(100.0, 0.0, 1.0);
      t.Proper() &&
      Abs(t.DenormalizedX(0.525) - 53.0) < Abs(t.DenormalizedX(0.5) - 53.0) &&
      t.Hits(0.525, 53.0) &&
      FirstHit(t, [0.5, 0.525], 53.0) == Some(0)
  {
    var t := Track(100.0, 0.0, 1.0);
    assert t.DenormalizedX(0.5) == 50.0;
    assert t.DenormalizedX(0.525) == 52.0;
  }
}
