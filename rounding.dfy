/**
 * The rounding engine: the value a slider reports for a raw position.
 * A rounding is either one fixed step, or a table of (step, threshold)
 * tiers where a value uses the step of the smallest threshold above it.
 * Rounding is anchored at zero: the candidates are the multiples of the step.
 */
module Rounding {
  import opened Wrappers

  /** One row of a tiered table: values below `threshold` round with `step`. */
  datatype Tier = Tier(step: real, threshold: real)

  /** The `rounding` option: a number, or an object mapping step to threshold. */
  datatype Rounding = Fixed(step: real) | Tiered(tiers: seq<Tier>)

  /** The `k`-th multiple of the step `s`. */
  function Multiple(k: int, s: real): real {
    (k as real) * s
  }

  ghost predicate IsMultiple(r: real, s: real) {
    exists k: int :: r == Multiple(k, s)
  }

  /** Consecutive multiples are one step apart. */
  lemma MultipleNext(k: int, s: real)
    ensures Multiple(k + 1, s) == Multiple(k, s) + s
  {
  }

  /** With a positive step, multiples grow with their index. */
  lemma {:induction false} MultipleMonotone(j: int, k: int, s: real)
    requires s > 0.0 && j < k
    ensures Multiple(j, s) + s <= Multiple(k, s)
  {
    assert (k - j) as real >= 1.0;
    assert Multiple(k, s) - Multiple(j, s) == ((k - j) as real) * s;
  }

  /** Multiplying by a positive factor keeps order. */
  lemma ScaleKeepsOrder(a: real, b: real, s: real)
    requires s > 0.0
    ensures a <= b ==> a * s <= b * s
    ensures a < b ==> a * s < b * s
  {
  }

  lemma DivideThenScale(v: real, s: real)
    requires s > 0.0
    ensures (v / s) * s == v
  {
  }

  lemma AddOneThenScale(f: real, s: real)
    ensures (f + 1.0) * s == f * s + s
  {
  }

  /** The floor of v / s brackets v between two consecutive multiples of s. */
  lemma FloorBrackets(v: real, s: real)
    requires s > 0.0
    ensures Multiple((v / s).Floor, s) <= v < Multiple((v / s).Floor, s) + s
  {
    var x := v / s;
    var k := x.Floor;
    var f := k as real;
    assert f <= x < f + 1.0;
    ScaleKeepsOrder(f, x, s);
    ScaleKeepsOrder(x, f + 1.0, s);
    DivideThenScale(v, s);
    AddOneThenScale(f, s);
    assert x * s < (f + 1.0) * s;
    assert v < f * s + s;
    assert Multiple(k, s) == f * s;
    assert Multiple(k, s) + s == f * s + s;
  }

  /**
   * Fixed-step rounding: the multiple of `s` nearest to `v`, an exact
   * half-step tie going to the lower multiple. With a non-positive step
   * the value is left as it is.
   */
  function RoundToStep(v: real, s: real): (r: real)
    ensures s > 0.0 ==> IsMultiple(r, s) && v - s / 2.0 <= r < v + s / 2.0
    ensures s <= 0.0 ==> r == v
  {
    if s <= 0.0 then v
    else
      var q := (v / s).Floor;
      FloorBrackets(v, s);
      MultipleNext(q, s);
      if v - Multiple(q, s) <= s / 2.0 then Multiple(q, s) else Multiple(q + 1, s)
  }

  /** Only one multiple of `s` lies in the half-open window [v - s/2, v + s/2). */
  lemma {:induction false} RoundToStepUnique(v: real, s: real, k: int)
    requires s > 0.0
    requires v - s / 2.0 <= Multiple(k, s) < v + s / 2.0
    ensures RoundToStep(v, s) == Multiple(k, s)
  {
    var r := RoundToStep(v, s);
    var j :| r == Multiple(j, s);
    if j < k {
      MultipleMonotone(j, k, s);
    } else if k < j {
      MultipleMonotone(k, j, s);
    }
  }

  function Abs(x: real): real {
    if x < 0.0 then -x else x
  }

  /**
   * RoundToStep is the nearest multiple of the step, and of two equally
   * near multiples it is the lower one.
   */
  lemma {:induction false} RoundToStepNearest(v: real, s: real, k: int)
    requires s > 0.0
    ensures Abs(v - RoundToStep(v, s)) <= Abs(v - Multiple(k, s))
    ensures Abs(v - RoundToStep(v, s)) == Abs(v - Multiple(k, s)) ==> RoundToStep(v, s) <= Multiple(k, s)
  {
    var r := RoundToStep(v, s);
    var j :| r == Multiple(j, s);
    if j < k {
      MultipleMonotone(j, k, s);
    } else if k < j {
      MultipleMonotone(k, j, s);
    }
  }

  /** A multiple of the step rounds to itself. */
  lemma {:induction false} RoundToStepOfMultiple(k: int, s: real)
    requires s > 0.0
    ensures RoundToStep(Multiple(k, s), s) == Multiple(k, s)
  {
    RoundToStepUnique(Multiple(k, s), s, k);
  }

  /** Fixed-step rounding is idempotent. */
  lemma {:induction false} RoundToStepIdempotent(v: real, s: real)
    ensures RoundToStep(RoundToStep(v, s), s) == RoundToStep(v, s)
  {
    if s > 0.0 {
      var j :| RoundToStep(v, s) == Multiple(j, s);
      RoundToStepOfMultiple(j, s);
    }
  }

  /** Fixed-step rounding never reverses the order of two values. */
  lemma {:induction false} RoundToStepMonotone(v: real, w: real, s: real)
    requires v <= w
    ensures RoundToStep(v, s) <= RoundToStep(w, s)
  {
    if s > 0.0 {
      var rv, rw := RoundToStep(v, s), RoundToStep(w, s);
      assert rv < v + s / 2.0 && w - s / 2.0 <= rw;
      var i :| rv == Multiple(i, s);
      var j :| rw == Multiple(j, s);
      if j < i {
        MultipleMonotone(j, i, s);
        assert false;
      } else if i < j {
        MultipleMonotone(i, j, s);
      }
    }
  }

  /**
   * The tier with the smallest threshold strictly above `v` (the first such
   * row when several share that threshold), or None when every threshold
   * is at or below `v`.
   */
  function FirstAbove(t: seq<Tier>, v: real): (r: Option<Tier>)
    ensures r.None? <==> forall i :: 0 <= i < |t| ==> t[i].threshold <= v
    ensures r.Some? ==> r.value in t && v < r.value.threshold
    ensures r.Some? ==> forall i :: 0 <= i < |t| && v < t[i].threshold ==> r.value.threshold <= t[i].threshold
  {
    if |t| == 0 then None
    else
      var rest := FirstAbove(t[1..], v);
      if v < t[0].threshold && (rest.None? || t[0].threshold <= rest.value.threshold) then Some(t[0])
      else rest
  }

  /** The tier with the largest threshold (the first such row on a tie). */
  function Largest(t: seq<Tier>): (r: Tier)
    requires |t| > 0
    ensures r in t
    ensures forall i :: 0 <= i < |t| ==> t[i].threshold <= r.threshold
  {
    if |t| == 1 then t[0]
    else
      var rest := Largest(t[1..]);
      if rest.threshold <= t[0].threshold then t[0] else rest
  }

  /**
   * The tier that decides the step for `v`: the smallest threshold strictly
   * greater than `v`, or the tier of the largest threshold when `v` is at or
   * above every threshold.
   */
  function SelectTier(t: seq<Tier>, v: real): (r: Tier)
    requires |t| > 0
    ensures r in t
    ensures (exists i :: 0 <= i < |t| && v < t[i].threshold) ==>
      v < r.threshold && forall i :: 0 <= i < |t| && v < t[i].threshold ==> r.threshold <= t[i].threshold
    ensures (forall i :: 0 <= i < |t| ==> t[i].threshold <= v) ==>
      forall i :: 0 <= i < |t| ==> t[i].threshold <= r.threshold
  {
    match FirstAbove(t, v)
    case Some(tier) => tier
    case None => Largest(t)
  }

  /** A usable rounding: a positive step, or a non-empty table of positive steps. */
  predicate ValidRounding(rounding: Rounding) {
    match rounding
    case Fixed(s) => s > 0.0
    case Tiered(t) => |t| > 0 && forall i :: 0 <= i < |t| ==> t[i].step > 0.0
  }

  /** The step that applies to `v`; 0 (no rounding) for an empty table. */
  function StepFor(rounding: Rounding, v: real): (s: real)
    ensures ValidRounding(rounding) ==> s > 0.0
    ensures rounding.Tiered? && |rounding.tiers| > 0 ==> exists i :: 0 <= i < |rounding.tiers| && rounding.tiers[i].step == s
  {
    match rounding
    case Fixed(s) => s
    case Tiered(t) =>
      if |t| == 0 then 0.0
      else
        var tier := SelectTier(t, v);
        var i :| 0 <= i < |t| && t[i] == tier;
        tier.step
  }

  /** round_value_according_to_rounding: round `v` with the step that applies to it. */
  function Round(rounding: Rounding, v: real): (r: real)
    ensures ValidRounding(rounding) ==>
      IsMultiple(r, StepFor(rounding, v)) && v - StepFor(rounding, v) / 2.0 <= r < v + StepFor(rounding, v) / 2.0
    ensures !ValidRounding(rounding) && rounding.Tiered? && rounding.tiers == [] ==> r == v
  {
    RoundToStep(v, StepFor(rounding, v))
  }

  /** With one fixed step, rounding is idempotent and never reverses order. */
  lemma {:induction false} FixedRoundIsClosure(s: real, v: real, w: real)
    requires v <= w
    ensures Round(Fixed(s), Round(Fixed(s), v)) == Round(Fixed(s), v)
    ensures Round(Fixed(s), v) <= Round(Fixed(s), w)
  {
    RoundToStepIdempotent(v, s);
    RoundToStepMonotone(v, w, s);
  }

  /**
   * Tiered rounding is not monotone: with tiers {20: 500, 1000: 1000},
   * 499 rounds up to 500 with step 20 while 500 rounds down to 0 with
   * step 1000.
   */
  lemma TieredRoundNotMonotone()
    ensures var t := Tiered([Tier(20.0, 500.0), Tier(1000.0, 1000.0)]);
      Round(t, 499.0) == 500.0 && Round(t, 500.0) == 0.0
  {
    var t := [Tier(20.0, 500.0), Tier(1000.0, 1000.0)];
    assert SelectTier(t, 499.0) == Tier(20.0, 500.0);
    assert SelectTier(t, 500.0) == Tier(1000.0, 1000.0);
    RoundToStepUnique(499.0, 20.0, 25);
    RoundToStepUnique(500.0, 1000.0, 0);
  }
}
