/**
 * The value model of one slider: the range, the optional limits, and the
 * rules that turn raw grip positions into the current selection.
 *
 * A raw value strictly inside the range is rounded; a value at or past a
 * range end is never rounded. The result is then fitted: at or below the
 * range start it becomes the lower bound (the lower limit when one is
 * set, else the range start), at or above the range end the upper bound,
 * and a value inside the range is kept within [lower bound, upper bound].
 */
module ValueModel {
  import opened Wrappers
  import opened Rounding

  datatype Range = Range(min: real, max: real)

  /** data-lower-limit and data-upper-limit, each optional. */
  datatype Limits = Limits(lower: Option<real>, upper: Option<real>)

  /** The current selection: get_current_min_value and get_current_max_value. */
  datatype Selection = Selection(min: real, max: real)

  /** The lower limit when set, the range start otherwise. */
  function LowerBound(range: Range, limits: Limits): real {
    limits.lower.GetOr(range.min)
  }

  /** The upper limit when set, the range end otherwise. */
  function UpperBound(range: Range, limits: Limits): real {
    limits.upper.GetOr(range.max)
  }

  /** The limits do not narrow the range: the only configuration the suite exercises. */
  predicate LimitsOutside(range: Range, limits: Limits) {
    LowerBound(range, limits) <= range.min && range.max <= UpperBound(range, limits)
  }

  function Clamp(x: real, lo: real, hi: real): real {
    if x < lo then lo else if hi < x then hi else x
  }

  /** Constrain a value to the range and limits, without rounding it. */
  function Fit(range: Range, limits: Limits, x: real): (r: real)
    ensures LowerBound(range, limits) <= UpperBound(range, limits) ==>
      LowerBound(range, limits) <= r <= UpperBound(range, limits)
    ensures x <= range.min ==> r == LowerBound(range, limits)
    ensures range.min < range.max <= x ==> r == UpperBound(range, limits)
    ensures LimitsOutside(range, limits) && range.min < x < range.max ==> r == x
  {
    if x <= range.min then LowerBound(range, limits)
    else if range.max <= x then UpperBound(range, limits)
    else Clamp(x, LowerBound(range, limits), UpperBound(range, limits))
  }

  /** Rounding applies only to values strictly inside the range. */
  function Snap(rounding: Rounding, range: Range, v: real): real {
    if range.min < v < range.max then Round(rounding, v) else v
  }

  /** Where one grip lands for the raw value `v`. */
  function Place(rounding: Rounding, range: Range, limits: Limits, v: real): (r: real)
    ensures LowerBound(range, limits) <= UpperBound(range, limits) ==>
      LowerBound(range, limits) <= r <= UpperBound(range, limits)
    ensures v <= range.min ==> r == LowerBound(range, limits)
    ensures range.min < range.max <= v ==> r == UpperBound(range, limits)
    ensures LimitsOutside(range, limits) && range.min < v < range.max && range.min < Round(rounding, v) < range.max ==>
      r == Round(rounding, v)
  {
    Fit(range, limits, Snap(rounding, range, v))
  }

  /** The two values as a selection, smaller first. */
  function Ordered(x: real, y: real): (s: Selection)
    ensures s.min <= s.max
    ensures multiset{s.min, s.max} == multiset{x, y}
  {
    if x <= y then Selection(x, y) else Selection(y, x)
  }

  /**
   * set_position(a, b): sort the two raw values, place each one, and
   * report the placed pair smaller first.
   */
  function PositionFor(rounding: Rounding, range: Range, limits: Limits, a: real, b: real): (s: Selection)
    ensures s.min <= s.max
    ensures LowerBound(range, limits) <= UpperBound(range, limits) ==>
      LowerBound(range, limits) <= s.min && s.max <= UpperBound(range, limits)
    ensures multiset{s.min, s.max} == multiset{Place(rounding, range, limits, a), Place(rounding, range, limits, b)}
  {
    var lo := if a <= b then a else b;
    var hi := if a <= b then b else a;
    Ordered(Place(rounding, range, limits, lo), Place(rounding, range, limits, hi))
  }

  /** set_range's re-constraint of the current selection: fitted, not re-rounded. */
  function Reconstrain(range: Range, limits: Limits, sel: Selection): (s: Selection)
    ensures s.min <= s.max
    ensures LowerBound(range, limits) <= UpperBound(range, limits) ==>
      LowerBound(range, limits) <= s.min && s.max <= UpperBound(range, limits)
    ensures multiset{s.min, s.max} == multiset{Fit(range, limits, sel.min), Fit(range, limits, sel.max)}
  {
    Ordered(Fit(range, limits, sel.min), Fit(range, limits, sel.max))
  }

  /** is_handle_to_left_extreme. */
  predicate AtLowerExtreme(range: Range, limits: Limits, sel: Selection) {
    sel.min == LowerBound(range, limits)
  }

  /** is_handle_to_right_extreme. */
  predicate AtUpperExtreme(range: Range, limits: Limits, sel: Selection) {
    sel.max == UpperBound(range, limits)
  }

  /** Grips may cross: which grip carries which raw value does not matter. */
  lemma PositionForSymmetric(rounding: Rounding, range: Range, limits: Limits, a: real, b: real)
    ensures PositionFor(rounding, range, limits, a, b) == PositionFor(rounding, range, limits, b, a)
  {
  }

  lemma FitMonotone(range: Range, limits: Limits, x: real, y: real)
    requires LowerBound(range, limits) <= UpperBound(range, limits)
    requires x <= y
    ensures Fit(range, limits, x) <= Fit(range, limits, y)
  {
  }

  /** With a fixed step, placing never reverses the order of two raw values. */
  lemma {:induction false} PlaceMonotone(s: real, range: Range, limits: Limits, v: real, w: real)
    requires LowerBound(range, limits) <= UpperBound(range, limits)
    requires v <= w
    ensures Place(Fixed(s), range, limits, v) <= Place(Fixed(s), range, limits, w)
  {
    if range.min < v < range.max && range.min < w < range.max {
      FixedRoundIsClosure(s, v, w);
      FitMonotone(range, limits, Round(Fixed(s), v), Round(Fixed(s), w));
    }
  }

  /**
   * With a fixed step the final re-ordering never fires: the smaller raw
   * value lands on the min grip and the larger on the max grip.
   */
  lemma {:induction false} FixedStepKeepsOrder(s: real, range: Range, limits: Limits, a: real, b: real)
    requires LowerBound(range, limits) <= UpperBound(range, limits)
    requires a <= b
    ensures PositionFor(Fixed(s), range, limits, a, b) ==
      Selection(Place(Fixed(s), range, limits, a), Place(Fixed(s), range, limits, b))
  {
    PlaceMonotone(s, range, limits, a, b);
  }

  /**
   * A placed value is settled: placing it again, or fitting it again to
   * the same range, leaves it where it is.
   */
  lemma {:induction false} PlaceSettled(s: real, range: Range, limits: Limits, v: real)
    requires LimitsOutside(range, limits) && range.min < range.max
    ensures Place(Fixed(s), range, limits, Place(Fixed(s), range, limits, v)) == Place(Fixed(s), range, limits, v)
    ensures Fit(range, limits, Place(Fixed(s), range, limits, v)) == Place(Fixed(s), range, limits, v)
  {
    var x := Round(Fixed(s), v);
    var p := Place(Fixed(s), range, limits, v);
    if range.min < v < range.max && range.min < x < range.max {
      assert p == x;
      RoundToStepIdempotent(v, s);
      assert Round(Fixed(s), p) == p;
    }
  }

  /**
   * set_position is idempotent, and re-submitting the current selection
   * (by set_position, or by set_range with the same range) changes nothing.
   */
  lemma {:induction false} PositionSettled(s: real, range: Range, limits: Limits, a: real, b: real)
    requires LimitsOutside(range, limits) && range.min < range.max
    ensures var p := PositionFor(Fixed(s), range, limits, a, b);
      PositionFor(Fixed(s), range, limits, p.min, p.max) == p && Reconstrain(range, limits, p) == p
  {
    var p := PositionFor(Fixed(s), range, limits, a, b);
    PlaceSettled(s, range, limits, a);
    PlaceSettled(s, range, limits, b);
    assert p.min in multiset{Place(Fixed(s), range, limits, a), Place(Fixed(s), range, limits, b)};
    assert p.max in multiset{Place(Fixed(s), range, limits, a), Place(Fixed(s), range, limits, b)};
    assert Place(Fixed(s), range, limits, p.min) == p.min;
    assert Place(Fixed(s), range, limits, p.max) == p.max;
  }

  /**
   * With a table the final sort can fire: on [0, 2000], 499 lands on 500
   * but 500 lands on 0, so the grip given the smaller raw value ends up on
   * the max side.
   */
  lemma TieredPlacementReorders()
    ensures var t := Tiered([Tier(20.0, 500.0), Tier(1000.0, 1000.0)]);
      var range := Range(0.0, 2000.0);
      && Place(t, range, Limits(None, None), 499.0) == 500.0
      && Place(t, range, Limits(None, None), 500.0) == 0.0
      && PositionFor(t, range, Limits(None, None), 499.0, 500.0) == Selection(0.0, 500.0)
  {
    TieredRoundNotMonotone();
  }

  /** Widening the range around the selection keeps the selection. */
  lemma WidenedRangeKeepsSelection(range: Range, limits: Limits, sel: Selection)
    requires LimitsOutside(range, limits)
    requires range.min < sel.min <= sel.max < range.max
    ensures Reconstrain(range, limits, sel) == sel
  {
  }

  /**
   * A raw value at or past a range end puts its grip exactly on the
   * corresponding extreme, whatever the rounding and even when the range
   * end is not a multiple of the step.
   */
  lemma {:induction false} RangeEndsReachExtremes(rounding: Rounding, range: Range, limits: Limits, a: real, b: real)
    requires LowerBound(range, limits) <= UpperBound(range, limits) && range.min < range.max
    ensures a <= range.min ==> AtLowerExtreme(range, limits, PositionFor(rounding, range, limits, a, b))
    ensures range.max <= b ==> AtUpperExtreme(range, limits, PositionFor(rounding, range, limits, a, b))
  {
    var pa, pb := Place(rounding, range, limits, a), Place(rounding, range, limits, b);
    var p := PositionFor(rounding, range, limits, a, b);
    assert p == Ordered(pa, pb) || p == Ordered(pb, pa);
  }
}
