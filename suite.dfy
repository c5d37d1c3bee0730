/**
 * The numeric assertions of the QUnit suite, stated against the model:
 * rounding, placement on construction and set_position, set_range, the
 * listener bookkeeping and validation.
 */
module Suite {
  import opened Wrappers
  import opened Rounding
  import opened ValueModel
  import opened Configuration
  import opened DragCoordinator
  import opened SliderInstance

  const NoLimits := Limits(None, None)

  /** "Step-based value rounding" with step 10. */
  lemma FixedStepRounding()
    ensures RoundToStep(5.0, 10.0) == 0.0 && RoundToStep(6.0, 10.0) == 10.0
    ensures RoundToStep(9.0, 10.0) == 10.0 && RoundToStep(10.0, 10.0) == 10.0
    ensures RoundToStep(22.0, 10.0) == 20.0 && RoundToStep(35.0, 10.0) == 30.0
    ensures RoundToStep(999.0, 10.0) == 1000.0 && RoundToStep(1000.0, 10.0) == 1000.0
  {
    RoundToStepUnique(5.0, 10.0, 0);
    RoundToStepUnique(6.0, 10.0, 1);
    RoundToStepUnique(9.0, 10.0, 1);
    RoundToStepUnique(10.0, 10.0, 1);
    RoundToStepUnique(22.0, 10.0, 2);
    RoundToStepUnique(35.0, 10.0, 3);
    RoundToStepUnique(999.0, 10.0, 100);
    RoundToStepUnique(1000.0, 10.0, 100);
  }

  /** The table {1: 10, 10: 50, 20: 500, 100: 1000} of "Rounds correctly with variable roundings". */
  const SuiteTiers: seq<Tier> := [Tier(1.0, 10.0), Tier(10.0, 50.0), Tier(20.0, 500.0), Tier(100.0, 1000.0)]

  /** Which step of the suite's table applies to a value. */
  lemma {:induction false} SuiteStep(v: real)
    ensures StepFor(Tiered(SuiteTiers), v) ==
      if v < 10.0 then 1.0 else if v < 50.0 then 10.0 else if v < 500.0 then 20.0 else 100.0
  {
    var r := SelectTier(SuiteTiers, v);
    assert r in SuiteTiers;
    assert SuiteTiers[3].threshold == 1000.0;
    if v < 10.0 {
      assert v < SuiteTiers[0].threshold;
    } else if v < 50.0 {
      assert v < SuiteTiers[1].threshold;
    } else if v < 500.0 {
      assert v < SuiteTiers[2].threshold;
    }
  }

  /** Rounding with the table and a given step (as SuiteStep selects it). */
  lemma {:induction false} SuiteRound(v: real, step: real, k: int)
    requires StepFor(Tiered(SuiteTiers), v) == step && step > 0.0
    requires v - step / 2.0 <= Multiple(k, step) < v + step / 2.0
    ensures Round(Tiered(SuiteTiers), v) == Multiple(k, step)
  {
    RoundToStepUnique(v, step, k);
  }

  /** "Rounds correctly with variable roundings": values below 10 use step 1. */
  lemma TieredRoundingFine()
    ensures var t := Tiered(SuiteTiers);
      Round(t, 1.0) == 1.0 && Round(t, 5.0) == 5.0 && Round(t, 6.0) == 6.0 && Round(t, 9.0) == 9.0
  {
    SuiteStep(1.0); SuiteRound(1.0, 1.0, 1);
    SuiteStep(5.0); SuiteRound(5.0, 1.0, 5);
    SuiteStep(6.0); SuiteRound(6.0, 1.0, 6);
    SuiteStep(9.0); SuiteRound(9.0, 1.0, 9);
  }

  /** Values from 10 to 50 use step 10; 35 is a tie and goes down. */
  lemma TieredRoundingTens()
    ensures var t := Tiered(SuiteTiers);
      Round(t, 10.0) == 10.0 && Round(t, 22.0) == 20.0 && Round(t, 35.0) == 30.0
  {
    SuiteStep(10.0); SuiteRound(10.0, 10.0, 1);
    SuiteStep(22.0); SuiteRound(22.0, 10.0, 2);
    SuiteStep(35.0); SuiteRound(35.0, 10.0, 3);
  }

  /** Values from 50 to 500 use step 20; 450 is a tie and goes down. */
  lemma TieredRoundingTwenties()
    ensures var t := Tiered(SuiteTiers);
      Round(t, 450.0) == 440.0 && Round(t, 300.0) == 300.0
  {
    SuiteStep(450.0); SuiteRound(450.0, 20.0, 22);
    SuiteStep(300.0); SuiteRound(300.0, 20.0, 15);
  }

  /** Values from 500 up use step 100, the step of the largest threshold included. */
  lemma TieredRoundingCoarse()
    ensures var t := Tiered(SuiteTiers);
      Round(t, 999.0) == 1000.0 && Round(t, 923.0) == 900.0 && Round(t, 4436.0) == 4400.0
  {
    SuiteStep(999.0); SuiteRound(999.0, 100.0, 10);
    SuiteStep(923.0); SuiteRound(923.0, 100.0, 9);
    SuiteStep(4436.0); SuiteRound(4436.0, 100.0, 44);
  }

  /** A raw value inside the range lands where its rounded value is fitted. */
  lemma {:induction false} PlaceRounded(s: real, range: Range, limits: Limits, v: real, k: int)
    requires s > 0.0 && range.min < v < range.max
    requires v - s / 2.0 <= Multiple(k, s) < v + s / 2.0
    ensures Place(Fixed(s), range, limits, v) == Fit(range, limits, Multiple(k, s))
  {
    RoundToStepUnique(v, s, k);
  }

  /** "rounds the position of the slider ...": step 100 on [0, 1000]. */
  lemma SetPositionRounds()
    ensures var p := (a: real, b: real) => PositionFor(Fixed(100.0), Range(0.0, 1000.0), NoLimits, a, b);
      && p(150.0, 400.1) == Selection(100.0, 400.0)
      && p(151.0, 560.0) == Selection(200.0, 600.0)
      && p(2.0, 7.0) == Selection(0.0, 0.0)
  {
    var range := Range(0.0, 1000.0);
    PlaceRounded(100.0, range, NoLimits, 150.0, 1);
    PlaceRounded(100.0, range, NoLimits, 400.1, 4);
    PlaceRounded(100.0, range, NoLimits, 151.0, 2);
    PlaceRounded(100.0, range, NoLimits, 560.0, 6);
    PlaceRounded(100.0, range, NoLimits, 2.0, 0);
    PlaceRounded(100.0, range, NoLimits, 7.0, 0);
  }

  /** "performs rounding only for values in the middle of the range": step 10 on [3, 37]. */
  lemma SetPositionKeepsRangeEnds()
    ensures var p := (a: real, b: real) => PositionFor(Fixed(10.0), Range(3.0, 37.0), NoLimits, a, b);
      && p(3.0, 3.0) == Selection(3.0, 3.0)
      && p(3.0, 37.0) == Selection(3.0, 37.0)
      && p(10.0, 30.0) == Selection(10.0, 30.0)
      && p(15.0, 23.0) == Selection(10.0, 20.0)
  {
    var range := Range(3.0, 37.0);
    PlaceRounded(10.0, range, NoLimits, 10.0, 1);
    PlaceRounded(10.0, range, NoLimits, 30.0, 3);
    PlaceRounded(10.0, range, NoLimits, 15.0, 1);
    PlaceRounded(10.0, range, NoLimits, 23.0, 2);
  }

  /** "keeps the handles within the range/limits", and "grips can cross". */
  lemma SetPositionPinsToBounds()
    ensures PositionFor(Fixed(100.0), Range(100.0, 1000.0), NoLimits, 50.0, 2000.0) == Selection(100.0, 1000.0)
    ensures var limits := Limits(Some(80.0), Some(1100.0));
      && PositionFor(Fixed(100.0), Range(100.0, 1000.0), limits, 50.0, 2000.0) == Selection(80.0, 1100.0)
      && PositionFor(Fixed(100.0), Range(100.0, 1000.0), limits, 2000.0, 50.0) == Selection(80.0, 1100.0)
  {
  }

  /** Construction places cur_min and cur_max; values at a range end take the limit. */
  lemma ConstructionWithLimits()
    ensures var range := Range(5.0, 95.0);
      && PositionFor(Fixed(5.0), range, Limits(Some(1.0), Some(100.0)), 5.0, 60.0) == Selection(1.0, 60.0)
      && AtLowerExtreme(range, Limits(Some(1.0), Some(100.0)), Selection(1.0, 60.0))
      && PositionFor(Fixed(5.0), range, Limits(Some(1.0), Some(1000.0)), 5.0, 95.0) == Selection(1.0, 1000.0)
      && AtUpperExtreme(range, Limits(Some(1.0), Some(1000.0)), Selection(1.0, 1000.0))
      && PositionFor(Fixed(5.0), range, Limits(Some(1.0), Some(100.0)), 30.0, 60.0) == Selection(30.0, 60.0)
      && !AtUpperExtreme(range, Limits(Some(1.0), Some(100.0)), Selection(30.0, 60.0))
      && PositionFor(Fixed(10.0), range, Limits(Some(1.0), Some(100.0)), 30.0, 60.0) == Selection(30.0, 60.0)
      && !AtLowerExtreme(range, Limits(Some(1.0), Some(100.0)), Selection(30.0, 60.0))
      && !AtUpperExtreme(range, Limits(Some(1.0), Some(100.0)), Selection(30.0, 60.0))
  {
    var range := Range(5.0, 95.0);
    PlaceRounded(5.0, range, Limits(Some(1.0), Some(100.0)), 60.0, 12);
    PlaceRounded(10.0, range, Limits(Some(1.0), Some(100.0)), 30.0, 3);
    PlaceRounded(5.0, range, Limits(Some(1.0), Some(100.0)), 30.0, 6);
    PlaceRounded(10.0, range, Limits(Some(1.0), Some(100.0)), 60.0, 6);
  }

  /** "detects limits for non exact roundings": step 7 on [2, 10]. */
  lemma ConstructionNonExactStep()
    ensures var sel := PositionFor(Fixed(7.0), Range(2.0, 10.0), NoLimits, 2.0, 10.0);
      sel == Selection(2.0, 10.0) && AtLowerExtreme(Range(2.0, 10.0), NoLimits, sel) && AtUpperExtreme(Range(2.0, 10.0), NoLimits, sel)
    ensures var limits := Limits(Some(1.0), Some(100.0));
      var sel := PositionFor(Fixed(7.0), Range(2.0, 10.0), limits, 2.0, 10.0);
      sel == Selection(1.0, 100.0) && AtLowerExtreme(Range(2.0, 10.0), limits, sel) && AtUpperExtreme(Range(2.0, 10.0), limits, sel)
  {
  }

  /** "detects constrained values since construction", then the set_range sequence. */
  lemma ConstructionAndSetRange()
    ensures PositionFor(Fixed(100.0), Range(500.0, 800.0), NoLimits, 500.0, 1000.0) == Selection(500.0, 800.0)
    ensures Reconstrain(Range(0.0, 1000.0), NoLimits, Selection(500.0, 800.0)) == Selection(500.0, 800.0)
    ensures Reconstrain(Range(500.0, 800.0), NoLimits, Selection(500.0, 800.0)) == Selection(500.0, 800.0)
    ensures Reconstrain(Range(700.0, 800.0), NoLimits, Selection(500.0, 800.0)) == Selection(700.0, 800.0)
  {
  }

  /** The extremes tests without limits: the bounds are the range ends. */
  lemma ExtremesWithoutLimits()
    ensures var range := Range(5.0, 95.0);
      var far := PositionFor(Fixed(10.0), range, NoLimits, 30.0, 60.0);
      far == Selection(30.0, 60.0) && !AtLowerExtreme(range, NoLimits, far) && !AtUpperExtreme(range, NoLimits, far)
    ensures var range := Range(5.0, 95.0);
      var left := PositionFor(Fixed(5.0), range, NoLimits, 5.0, 60.0);
      left == Selection(5.0, 60.0) && AtLowerExtreme(range, NoLimits, left)
    ensures var range := Range(5.0, 95.0);
      var right := PositionFor(Fixed(1.0), range, NoLimits, 6.0, 95.0);
      right == Selection(6.0, 95.0) && !AtLowerExtreme(range, NoLimits, right) && AtUpperExtreme(range, NoLimits, right)
    ensures var range := Range(5.0, 95.0);
      var short := PositionFor(Fixed(5.0), range, NoLimits, 30.0, 60.0);
      short == Selection(30.0, 60.0) && !AtUpperExtreme(range, NoLimits, short)
    ensures var range := Range(5.0, 95.0);
      var both := PositionFor(Fixed(5.0), range, NoLimits, 5.0, 95.0);
      both == Selection(5.0, 95.0) && AtLowerExtreme(range, NoLimits, both) && AtUpperExtreme(range, NoLimits, both)
  {
    var range := Range(5.0, 95.0);
    PlaceRounded(10.0, range, NoLimits, 30.0, 3);
    PlaceRounded(10.0, range, NoLimits, 60.0, 6);
    PlaceRounded(5.0, range, NoLimits, 60.0, 12);
    PlaceRounded(1.0, range, NoLimits, 6.0, 6);
    PlaceRounded(5.0, range, NoLimits, 30.0, 6);
  }

  /** "detects constrained values within callback": step 20 on [750, 1395], then set_range(795, 1250). */
  lemma SetRangeNarrows()
    ensures var sel := PositionFor(Fixed(20.0), Range(750.0, 1395.0), NoLimits, 750.0, 1395.0);
      && sel == Selection(750.0, 1395.0)
      && Reconstrain(Range(795.0, 1250.0), NoLimits, sel) == Selection(795.0, 1250.0)
  {
  }

  /** A complete configuration: rounding 10 on [5, 95], current 30 to 60. */
  const Basic := Blank.(rounding := Some(Fixed(10.0)), rangeMin := Some(5.0), rangeMax := Some(95.0),
                        curMin := Some(30.0), curMax := Some(60.0))

  /** "validates input parameters": data- errors, selectors, crossing limits. */
  lemma ValidationMessages()
    ensures Validate(Blank, {}) == Failure(MissingData(RoundingField))
    ensures Contains(Message(MissingData(RoundingField)), "data-")
    ensures Validate(Basic, {}).Success?
    ensures var bad := Basic.(leftGripSelector := Some(".not-existing-selector"));
      && Validate(bad, {".the-left-grip"}) == Failure(MissingElement(LeftGrip, ".not-existing-selector"))
      && Contains(Message(MissingElement(LeftGrip, ".not-existing-selector")), ".not-existing-selector")
    ensures Validate(Basic.(leftGripSelector := Some(".the-left-grip")), {".the-left-grip"}).Success?
    ensures var bad := Basic.(rightGripSelector := Some(".not-existing-selector"));
      && Validate(bad, {}) == Failure(MissingElement(RightGrip, ".not-existing-selector"))
      && Contains(Message(MissingElement(RightGrip, ".not-existing-selector")), ".not-existing-selector")
    ensures var bad := Basic.(valueBarSelector := Some(".not-existing-selector"));
      && Validate(bad, {}) == Failure(MissingElement(ValueBar, ".not-existing-selector"))
      && Contains(Message(MissingElement(ValueBar, ".not-existing-selector")), "value_bar_selector")
  {
  }

  /** Crossing limits are refused whatever the rest of a complete configuration is. */
  lemma CrossingLimitsRejected(cfg: Config, markup: set<string>)
    requires HasRequired(cfg) && LimitsCross(cfg)
    requires Resolves(cfg, LeftGrip, markup) && Resolves(cfg, RightGrip, markup) && Resolves(cfg, ValueBar, markup)
    ensures Validate(cfg, markup) == Failure(InvalidLimits(cfg.lowerLimit.value, cfg.upperLimit.value))
    ensures Contains(Message(Validate(cfg, markup).error), CrossingLimitsMessage)
  {
  }

  /** The incremental test: rounding 10, range_min 10, range_max 110, cur_min 20 added one by one. */
  lemma ValidationUntilComplete(n: nat)
    requires n <= |RequiredFields|
    ensures var source := Blank.(rounding := Some(Fixed(10.0)), rangeMin := Some(10.0), rangeMax := Some(110.0), curMin := Some(20.0));
      var attempt := Validate(SupplyFirst(Blank, source, n), {});
      && (n < |RequiredFields| ==> attempt.Failure? && attempt.error.MissingData? && Contains(Message(attempt.error), "data-"))
      && (n == |RequiredFields| ==> attempt.Success?)
  {
    var source := Blank.(rounding := Some(Fixed(10.0)), rangeMin := Some(10.0), rangeMax := Some(110.0), curMin := Some(20.0));
    IncrementalValidation(Blank, source, {}, n);
  }

  /**
   * "event binding is performed correctly": nothing is bound to a fresh
   * document; one active slider binds two event types in the single
   * namespace nstSlider; after its teardown the document is bare again.
   */
  method EventBinding(cfg: Config, markup: set<string>) returns (before: nat, during: nat, namespaces: seq<string>, after: nat)
    requires Validate(cfg, markup).Success?
    ensures before == 0 && during == 2 && namespaces == [Namespace] && after == 0
  {
    var registry := new Registry([]);
    var list := BoundEventList(registry.bound);
    assert EventTypes([]) == {};
    DistinctCardinality(list, {});
    before := |list|;
    var b := Build(cfg, markup, registry);
    assert registry.bound == SharedListeners;
    list := BoundEventList(registry.bound);
    BoundListeners([], 1);
    DistinctCardinality(list, {Move, Release});
    during := |list|;
    namespaces := BoundEventNamespaces(registry.bound);
    DistinctCardinality(namespaces, {Namespace});
    assert namespaces[0] in {Namespace};
    var _ := b.slider.Teardown();
    assert registry.bound == [];
    list := BoundEventList(registry.bound);
    DistinctCardinality(list, {});
    after := |list|;
  }

  /** The identities of a list of sliders. */
  function Ids(sliders: seq<Slider>): set<nat> {
    if sliders == [] then {} else {sliders[0].id} + Ids(sliders[1..])
  }

  lemma {:induction false} IdsMembers(sliders: seq<Slider>, x: nat)
    ensures x in Ids(sliders) <==> exists i :: 0 <= i < |sliders| && sliders[i].id == x
  {
    if sliders != [] {
      IdsMembers(sliders[1..], x);
      if x in Ids(sliders[1..]) {
        var i :| 0 <= i < |sliders[1..]| && sliders[1..][i].id == x;
        assert sliders[i + 1].id == x;
      }
      if exists i :: 0 <= i < |sliders| && sliders[i].id == x {
        var i :| 0 <= i < |sliders| && sliders[i].id == x;
        if i > 0 {
          assert sliders[1..][i - 1].id == x;
        }
      }
    }
  }

  lemma {:induction false} IdsAppend(sliders: seq<Slider>, s: Slider)
    ensures Ids(sliders + [s]) == Ids(sliders) + {s.id}
  {
    if sliders != [] {
      assert (sliders + [s])[1..] == sliders[1..] + [s];
      IdsAppend(sliders[1..], s);
    } else {
      assert [s][1..] == [];
    }
  }

  predicate DistinctIds(sliders: seq<Slider>) {
    forall i, j :: 0 <= i < j < |sliders| ==> sliders[i].id != sliders[j].id
  }

  /** Build `n` sliders from one configuration on one document. */
  method BuildMany(cfg: Config, markup: set<string>, registry: Registry, n: nat) returns (sliders: seq<Slider>)
    requires Validate(cfg, markup).Success? && registry.Valid() && registry.active == {}
    modifies registry
    ensures registry.Valid()
    ensures |sliders| == n && |registry.active| == n && registry.active == Ids(sliders) && DistinctIds(sliders)
    ensures forall i :: 0 <= i < n ==>
      fresh(sliders[i]) && sliders[i].Valid() && sliders[i].state == Active && sliders[i].registry == registry
  {
    sliders := [];
    while |sliders| < n
      invariant |sliders| <= n
      invariant registry.Valid()
      invariant forall i :: 0 <= i < |sliders| ==>
        fresh(sliders[i]) && sliders[i].Valid() && sliders[i].state == Active && sliders[i].registry == registry
      invariant DistinctIds(sliders)
      invariant registry.active == Ids(sliders) && |registry.active| == |sliders|
    {
      var b := Build(cfg, markup, registry);
      IdsMembers(sliders, b.slider.id);
      IdsAppend(sliders, b.slider);
      sliders := sliders + [b.slider];
    }
  }

  /** Tear every slider of the list down. */
  method TeardownAll(sliders: seq<Slider>, registry: Registry)
    requires registry.Valid() && registry.active == Ids(sliders) && DistinctIds(sliders)
    requires forall i :: 0 <= i < |sliders| ==>
      sliders[i].Valid() && sliders[i].state == Active && sliders[i].registry == registry
    modifies registry, set i | 0 <= i < |sliders| :: sliders[i]
    ensures registry.Valid() && registry.active == {}
  {
    var k := 0;
    while k < |sliders|
      invariant k <= |sliders|
      invariant registry.Valid()
      invariant forall i :: k <= i < |sliders| ==>
        sliders[i].Valid() && sliders[i].state == Active && sliders[i].registry == registry
      invariant registry.active == Ids(sliders[k..])
    {
      assert sliders[k..][1..] == sliders[k + 1..];
      IdsMembers(sliders[k + 1..], sliders[k].id);
      var _ := sliders[k].Teardown();
      k := k + 1;
    }
  }

  /**
   * The suite's teardown: build `n` sliders on one document, then tear all
   * of them down; while any is active the shared pair is bound once, and
   * afterwards the document carries exactly its original listeners.
   */
  method TeardownRestoresBaseline(cfg: Config, markup: set<string>, baseline: seq<Listener>, n: nat)
    returns (during: seq<Listener>, after: seq<Listener>)
    requires Validate(cfg, markup).Success? && Unrelated(baseline)
    ensures during == baseline + (if n == 0 then [] else SharedListeners)
    ensures after == baseline
  {
    var registry := new Registry(baseline);
    var sliders := BuildMany(cfg, markup, registry, n);
    during := registry.bound;
    TeardownAll(sliders, registry);
    after := registry.bound;
  }

  /**
   * "notifies when slider is constructed" and "changes the position of the
   * handles based on the range": the callback first hears the cause "init"
   * with the constructed values, then "set_range" once per range change.
   */
  method CallbackCauses(registry: Registry) returns (notices: seq<Notice>)
    requires registry.Valid()
    modifies registry
    ensures notices == [Notice(Init, 500.0, 800.0), Notice(RangeSet, 500.0, 800.0),
                        Notice(RangeSet, 500.0, 800.0), Notice(RangeSet, 700.0, 800.0)]
    ensures seq(|notices|, i requires 0 <= i < |notices| => CauseName(notices[i].cause)) ==
      ["init", "set_range", "set_range", "set_range"]
  {
    var cfg := Blank.(rounding := Some(Fixed(100.0)), rangeMin := Some(500.0), rangeMax := Some(800.0),
                      curMin := Some(500.0), curMax := Some(800.0));
    assert Validate(cfg, {}) == Success(Settings(Fixed(100.0), Range(500.0, 800.0), NoLimits, 500.0, 800.0));
    var range := Range(500.0, 800.0);
    assert PositionFor(Fixed(100.0), range, NoLimits, 500.0, 800.0) == Selection(500.0, 800.0);
    var b := Build(cfg, {}, registry);
    var slider := b.slider;
    assert slider.notices == [Notice(Init, 500.0, 800.0)];
    ConstructionAndSetRange();
    var _ := slider.SetRange(0.0, 1000.0);
    var _ := slider.SetRange(500.0, 800.0);
    var _ := slider.SetRange(700.0, 800.0);
    notices := slider.notices;
  }
}
