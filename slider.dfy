/**
 * One slider control: its configuration, its current selection, the
 * notifications its value_changed_callback receives, and its life cycle
 * (built -> active -> torn down). Every public operation of a torn-down
 * slider fails with AlreadyTornDown.
 */
module SliderInstance {
  import opened Wrappers
  import opened Rounding
  import opened ValueModel
  import opened Configuration
  import opened DragCoordinator

  datatype State = Active | TornDown

  /** Why the value_changed_callback was called. */
  datatype Cause = Init | RangeSet | Drag

  function CauseName(c: Cause): string {
    match c
    case Init => "init"
    case RangeSet => "set_range"
    case Drag => "drag"
  }

  /** One call of value_changed_callback(cause, min, max). */
  datatype Notice = Notice(cause: Cause, min: real, max: real)

  datatype SliderError = AlreadyTornDown | BadRange(min: real, max: real)

  datatype Built = Built(slider: Slider) | Rejected(error: ConfigError)

  class Slider {
    const rounding: Rounding
    const limits: Limits
    const id: nat
    const registry: Registry
    var range: Range
    var current: Selection
    var state: State
    /** The calls value_changed_callback has received, oldest first. */
    var notices: seq<Notice>

    ghost predicate Valid()
      reads this
    {
      && range.min < range.max
      && current.min <= current.max
      && (LowerBound(range, limits) <= UpperBound(range, limits) ==>
            LowerBound(range, limits) <= current.min && current.max <= UpperBound(range, limits))
    }

    /** A slider built from validated settings, placed as set_position would place it. */
    constructor (settings: Settings, id: nat, registry: Registry)
      requires settings.range.min < settings.range.max
      ensures Valid() && state == Active
      ensures rounding == settings.rounding && range == settings.range && limits == settings.limits
      ensures this.id == id && this.registry == registry
      ensures current == PositionFor(settings.rounding, settings.range, settings.limits, settings.curMin, settings.curMax)
      ensures notices == [Notice(Init, current.min, current.max)]
    {
      rounding := settings.rounding;
      range := settings.range;
      limits := settings.limits;
      this.id := id;
      this.registry := registry;
      var sel := PositionFor(settings.rounding, settings.range, settings.limits, settings.curMin, settings.curMax);
      current := sel;
      state := Active;
      notices := [Notice(Init, sel.min, sel.max)];
    }

    function Live<T>(x: T): Result<T, SliderError>
      reads this
    {
      if state == Active then Success(x) else Failure(AlreadyTornDown)
    }

    /** get_range_min. */
    function GetRangeMin(): (r: Result<real, SliderError>)
      reads this
      ensures r.Success? <==> state == Active
      ensures r.Success? ==> r.value == range.min
    {
      Live(range.min)
    }

    /** get_range_max. */
    function GetRangeMax(): (r: Result<real, SliderError>)
      reads this
      ensures r.Success? <==> state == Active
      ensures r.Success? ==> r.value == range.max
    {
      Live(range.max)
    }

    /** get_current_min_value. */
    function GetCurrentMinValue(): (r: Result<real, SliderError>)
      reads this
      ensures r.Success? <==> state == Active
      ensures r.Success? ==> r.value == current.min
    {
      Live(current.min)
    }

    /** get_current_max_value. */
    function GetCurrentMaxValue(): (r: Result<real, SliderError>)
      reads this
      ensures r.Success? <==> state == Active
      ensures r.Success? ==> r.value == current.max
    {
      Live(current.max)
    }

    /** is_handle_to_left_extreme: the min grip sits on the lower bound. */
    function IsHandleToLeftExtreme(): (r: Result<bool, SliderError>)
      reads this
      ensures r.Success? <==> state == Active
      ensures r.Success? ==> (r.value <==> current.min == LowerBound(range, limits))
    {
      Live(AtLowerExtreme(range, limits, current))
    }

    /** is_handle_to_right_extreme: the max grip sits on the upper bound. */
    function IsHandleToRightExtreme(): (r: Result<bool, SliderError>)
      reads this
      ensures r.Success? <==> state == Active
      ensures r.Success? ==> (r.value <==> current.max == UpperBound(range, limits))
    {
      Live(AtUpperExtreme(range, limits, current))
    }

    /** get_rounding: the rounding exactly as configured. */
    function GetRounding(): (r: Result<Rounding, SliderError>)
      reads this
      ensures r.Success? <==> state == Active
      ensures r.Success? ==> r.value == rounding
    {
      Live(rounding)
    }

    /** round_value_according_to_rounding. */
    function RoundValue(v: real): (r: Result<real, SliderError>)
      reads this
      ensures r.Success? <==> state == Active
      ensures r.Success? && ValidRounding(rounding) ==>
        && IsMultiple(r.value, StepFor(rounding, v))
        && v - StepFor(rounding, v) / 2.0 <= r.value < v + StepFor(rounding, v) / 2.0
    {
      Live(Round(rounding, v))
    }

    /**
     * set_position(a, b): the selection becomes the placed, sorted pair;
     * the callback hears of it, with cause drag, only when it changed.
     */
    method SetPosition(a: real, b: real) returns (r: Result<Selection, SliderError>)
      requires Valid()
      modifies this
      ensures Valid()
      ensures range == old(range) && state == old(state)
      ensures old(state) == TornDown ==>
        r == Failure(AlreadyTornDown) && current == old(current) && notices == old(notices)
      ensures old(state) == Active ==>
        && current == PositionFor(rounding, range, limits, a, b)
        && r == Success(current)
        && notices == old(notices) + (if current == old(current) then [] else [Notice(Drag, current.min, current.max)])
    {
      if state == TornDown {
        return Failure(AlreadyTornDown);
      }
      var previous := current;
      current := PositionFor(rounding, range, limits, a, b);
      if current != previous {
        notices := notices + [Notice(Drag, current.min, current.max)];
      }
      r := Success(current);
    }

    /**
     * set_range(min, max): replace the range and fit the selection into it
     * without rounding it again; the callback always hears of it, with
     * cause set_range. An empty or reversed range is refused.
     */
    method SetRange(min: real, max: real) returns (r: Result<Selection, SliderError>)
      requires Valid()
      modifies this
      ensures Valid()
      ensures state == old(state)
      ensures old(state) == TornDown ==>
        r == Failure(AlreadyTornDown) && range == old(range) && current == old(current) && notices == old(notices)
      ensures old(state) == Active && max <= min ==>
        r == Failure(BadRange(min, max)) && range == old(range) && current == old(current) && notices == old(notices)
      ensures old(state) == Active && min < max ==>
        && range == Range(min, max)
        && current == Reconstrain(range, limits, old(current))
        && r == Success(current)
        && notices == old(notices) + [Notice(RangeSet, current.min, current.max)]
    {
      if state == TornDown {
        return Failure(AlreadyTornDown);
      }
      if max <= min {
        return Failure(BadRange(min, max));
      }
      range := Range(min, max);
      current := Reconstrain(range, limits, current);
      notices := notices + [Notice(RangeSet, current.min, current.max)];
      r := Success(current);
    }

    /** teardown: the slider becomes unusable and leaves the shared listeners' count. */
    method Teardown() returns (r: Outcome<SliderError>)
      requires Valid() && registry.Valid()
      modifies this, registry
      ensures Valid() && registry.Valid() && state == TornDown
      ensures range == old(range) && current == old(current) && notices == old(notices)
      ensures old(state) == TornDown ==> r == Fail(AlreadyTornDown) && unchanged(registry)
      ensures old(state) == Active ==>
        && r == Pass
        && registry.active == old(registry.active) - {id}
        && registry.dragging == (if old(registry.dragging) == Some(id) then None else old(registry.dragging))
    {
      if state == TornDown {
        return Fail(AlreadyTornDown);
      }
      state := TornDown;
      registry.Unregister(id);
      r := Pass;
    }
  }

  /**
   * nstSlider(): validate the configuration against the element's markup;
   * on success the new slider is active, registered with the shared
   * listeners, and its callback has been told once, with cause init.
   */
  method Build(cfg: Config, markup: set<string>, registry: Registry) returns (b: Built)
    requires registry.Valid()
    modifies registry
    ensures registry.Valid()
    ensures Validate(cfg, markup).Failure? ==> b == Rejected(Validate(cfg, markup).error) && unchanged(registry)
    ensures Validate(cfg, markup).Success? ==>
      var settings := Validate(cfg, markup).value;
      && b.Built? && fresh(b.slider)
      && b.slider.Valid() && b.slider.state == Active && b.slider.registry == registry
      && b.slider.rounding == settings.rounding && b.slider.range == settings.range && b.slider.limits == settings.limits
      && b.slider.current == PositionFor(settings.rounding, settings.range, settings.limits, settings.curMin, settings.curMax)
      && b.slider.notices == [Notice(Init, b.slider.current.min, b.slider.current.max)]
      && b.slider.id !in old(registry.active) && registry.active == old(registry.active) + {b.slider.id}
      && registry.dragging == old(registry.dragging)
  {
    var v := Validate(cfg, markup);
    if v.Failure? {
      return Rejected(v.error);
    }
    var id := registry.Register();
    var s := new Slider(v.value, id, registry);
    b := Built(s);
  }
}
