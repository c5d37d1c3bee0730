/**
 * Construction-time validation of a slider's configuration: the data-
 * attributes and options a caller supplies, each of which may be absent.
 */
module Configuration {
  import opened Wrappers
  import opened Rounding
  import opened ValueModel

  datatype Config = Config(
    rounding: Option<Rounding>,
    rangeMin: Option<real>,
    rangeMax: Option<real>,
    curMin: Option<real>,
    curMax: Option<real>,
    lowerLimit: Option<real>,
    upperLimit: Option<real>,
    leftGripSelector: Option<string>,
    rightGripSelector: Option<string>,
    valueBarSelector: Option<string>)

  /** A slider element that carries no data- attribute and no option. */
  const Blank := Config(None, None, None, None, None, None, None, None, None, None)

  /** The required data- attributes, in the order they are checked. */
  datatype Field = RoundingField | RangeMinField | RangeMaxField | CurMinField

  const RequiredFields: seq<Field> := [RoundingField, RangeMinField, RangeMaxField, CurMinField]

  datatype SelectorOption = LeftGrip | RightGrip | ValueBar

  datatype ConfigError =
    | MissingData(field: Field)
    | MissingElement(option: SelectorOption, selector: string)
    | InvalidLimits(lower: real, upper: real)
    | InvalidRange(min: real, max: real)

  /** What a slider is built from once its configuration is valid. */
  datatype Settings = Settings(rounding: Rounding, range: Range, limits: Limits, curMin: real, curMax: real)

  function FieldIndex(f: Field): nat {
    match f
    case RoundingField => 0
    case RangeMinField => 1
    case RangeMaxField => 2
    case CurMinField => 3
  }

  predicate Has(cfg: Config, f: Field) {
    match f
    case RoundingField => cfg.rounding.Some?
    case RangeMinField => cfg.rangeMin.Some?
    case RangeMaxField => cfg.rangeMax.Some?
    case CurMinField => cfg.curMin.Some?
  }

  predicate HasRequired(cfg: Config) {
    cfg.rounding.Some? && cfg.rangeMin.Some? && cfg.rangeMax.Some? && cfg.curMin.Some?
  }

  function Selector(cfg: Config, o: SelectorOption): Option<string> {
    match o
    case LeftGrip => cfg.leftGripSelector
    case RightGrip => cfg.rightGripSelector
    case ValueBar => cfg.valueBarSelector
  }

  /** An absent selector is fine; a present one must match an element of the markup. */
  predicate Resolves(cfg: Config, o: SelectorOption, markup: set<string>) {
    Selector(cfg, o).None? || Selector(cfg, o).value in markup
  }

  predicate LimitsCross(cfg: Config) {
    cfg.lowerLimit.Some? && cfg.upperLimit.Some? && cfg.upperLimit.value <= cfg.lowerLimit.value
  }

  function CheckSelector(cfg: Config, o: SelectorOption, markup: set<string>): (r: Outcome<ConfigError>)
    ensures r.Pass? <==> Resolves(cfg, o, markup)
    ensures r.Fail? ==> r.error == MissingElement(o, Selector(cfg, o).value)
  {
    match Selector(cfg, o)
    case None => Pass
    case Some(sel) => if sel in markup then Pass else Fail(MissingElement(o, sel))
  }

  /**
   * Validation at construction: the four required fields in order, then
   * the grip and value-bar selectors, then crossing limits, then the range.
   * An absent cur_max defaults to cur_min.
   */
  function Validate(cfg: Config, markup: set<string>): (r: Result<Settings, ConfigError>)
    ensures r.Success? <==>
      HasRequired(cfg) && Resolves(cfg, LeftGrip, markup) && Resolves(cfg, RightGrip, markup) &&
      Resolves(cfg, ValueBar, markup) && !LimitsCross(cfg) && cfg.rangeMin.value < cfg.rangeMax.value
    ensures (r.Failure? && r.error.MissingData?) <==> !HasRequired(cfg)
    ensures r.Failure? && r.error.MissingData? ==>
      !Has(cfg, r.error.field) && forall f :: FieldIndex(f) < FieldIndex(r.error.field) ==> Has(cfg, f)
    ensures r.Failure? && r.error.MissingElement? ==>
      Selector(cfg, r.error.option) == Some(r.error.selector) && r.error.selector !in markup
    ensures r.Failure? && r.error.InvalidLimits? ==>
      LimitsCross(cfg) && cfg.lowerLimit == Some(r.error.lower) && cfg.upperLimit == Some(r.error.upper)
    ensures r.Success? ==>
      r.value == Settings(cfg.rounding.value, Range(cfg.rangeMin.value, cfg.rangeMax.value),
                          Limits(cfg.lowerLimit, cfg.upperLimit), cfg.curMin.value, cfg.curMax.GetOr(cfg.curMin.value))
  {
    if cfg.rounding.None? then Failure(MissingData(RoundingField))
    else if cfg.rangeMin.None? then Failure(MissingData(RangeMinField))
    else if cfg.rangeMax.None? then Failure(MissingData(RangeMaxField))
    else if cfg.curMin.None? then Failure(MissingData(CurMinField))
    else if CheckSelector(cfg, LeftGrip, markup).Fail? then Failure(CheckSelector(cfg, LeftGrip, markup).error)
    else if CheckSelector(cfg, RightGrip, markup).Fail? then Failure(CheckSelector(cfg, RightGrip, markup).error)
    else if CheckSelector(cfg, ValueBar, markup).Fail? then Failure(CheckSelector(cfg, ValueBar, markup).error)
    else if LimitsCross(cfg) then Failure(InvalidLimits(cfg.lowerLimit.value, cfg.upperLimit.value))
    else if cfg.rangeMax.value <= cfg.rangeMin.value then Failure(InvalidRange(cfg.rangeMin.value, cfg.rangeMax.value))
    else
      Success(Settings(cfg.rounding.value, Range(cfg.rangeMin.value, cfg.rangeMax.value),
                       Limits(cfg.lowerLimit, cfg.upperLimit), cfg.curMin.value, cfg.curMax.GetOr(cfg.curMin.value)))
  }

  /** Set the data- attribute `f` on `cfg` to the value it has in `source`. */
  function Supply(cfg: Config, f: Field, source: Config): Config {
    match f
    case RoundingField => cfg.(rounding := source.rounding)
    case RangeMinField => cfg.(rangeMin := source.rangeMin)
    case RangeMaxField => cfg.(rangeMax := source.rangeMax)
    case CurMinField => cfg.(curMin := source.curMin)
  }

  /** `cfg` after the first `n` required attributes were copied from `source`, one at a time. */
  function SupplyFirst(cfg: Config, source: Config, n: nat): Config
    requires n <= |RequiredFields|
  {
    if n == 0 then cfg else Supply(SupplyFirst(cfg, source, n - 1), RequiredFields[n - 1], source)
  }

  /** Everything but the four required attributes. */
  function Optional(cfg: Config): (Option<real>, Option<real>, Option<real>, Option<string>, Option<string>, Option<string>) {
    (cfg.curMax, cfg.lowerLimit, cfg.upperLimit, cfg.leftGripSelector, cfg.rightGripSelector, cfg.valueBarSelector)
  }

  lemma {:induction false} SupplyFirstFields(cfg: Config, source: Config, n: nat)
    requires n <= |RequiredFields|
    ensures Optional(SupplyFirst(cfg, source, n)) == Optional(cfg)
    ensures var c := SupplyFirst(cfg, source, n);
      c.rounding == (if 0 < n then source.rounding else cfg.rounding) &&
      c.rangeMin == (if 1 < n then source.rangeMin else cfg.rangeMin) &&
      c.rangeMax == (if 2 < n then source.rangeMax else cfg.rangeMax) &&
      c.curMin == (if 3 < n then source.curMin else cfg.curMin)
  {
    if n > 0 {
      SupplyFirstFields(cfg, source, n - 1);
    }
  }

  /**
   * Adding the required attributes one at a time to an element that has
   * none: every attempt before the last one fails with a data- error naming
   * the next missing attribute, and the attempt with all four succeeds when
   * the rest of the configuration is acceptable.
   */
  lemma {:induction false} IncrementalValidation(cfg: Config, source: Config, markup: set<string>, n: nat)
    requires n <= |RequiredFields|
    requires forall f :: !Has(cfg, f)
    requires HasRequired(source)
    ensures n < |RequiredFields| ==> Validate(SupplyFirst(cfg, source, n), markup) == Failure(MissingData(RequiredFields[n]))
    ensures n == |RequiredFields| ==>
      (Validate(SupplyFirst(cfg, source, n), markup).Success? <==>
        Resolves(cfg, LeftGrip, markup) && Resolves(cfg, RightGrip, markup) && Resolves(cfg, ValueBar, markup) &&
        !LimitsCross(cfg) && source.rangeMin.value < source.rangeMax.value)
  {
    SupplyFirstFields(cfg, source, n);
    assert !Has(cfg, RoundingField) && !Has(cfg, RangeMinField) && !Has(cfg, RangeMaxField) && !Has(cfg, CurMinField);
  }

  /** `sub` occurs in `s`. */
  ghost predicate Contains(s: string, sub: string) {
    exists i :: OccursAt(s, sub, i)
  }

  predicate OccursAt(s: string, sub: string, i: int) {
    0 <= i <= |s| - |sub| && s[i..i + |sub|] == sub
  }

  lemma ContainsMiddle(a: string, b: string, c: string)
    ensures Contains(a + b + c, b)
  {
    assert (a + b + c)[|a|..|a| + |b|] == b;
    assert OccursAt(a + b + c, b, |a|);
  }

  lemma ContainsPrefix(a: string, m: string)
    requires |a| <= |m| && m[..|a|] == a
    ensures Contains(m, a)
  {
    assert OccursAt(m, a, 0);
  }

  function FieldName(f: Field): string {
    match f
    case RoundingField => "rounding"
    case RangeMinField => "range_min"
    case RangeMaxField => "range_max"
    case CurMinField => "cur_min"
  }

  function OptionName(o: SelectorOption): string {
    match o
    case LeftGrip => "left_grip_selector"
    case RightGrip => "right_grip_selector"
    case ValueBar => "value_bar_selector"
  }

  const CrossingLimitsMessage: string := "Invalid data-lower-limit or data-upper-limit"

  /**
   * The text of the exception thrown for an error: a missing field is
   * reported as a data- attribute, a missing element by the option and the
   * selector, crossing limits by a fixed message.
   */
  function Message(e: ConfigError): (m: string)
    ensures e.MissingData? ==> Contains(m, "data-") && Contains(m, FieldName(e.field))
    ensures e.MissingElement? ==> Contains(m, e.selector) && Contains(m, OptionName(e.option))
    ensures e.InvalidLimits? ==> Contains(m, CrossingLimitsMessage)
  {
    match e
    case MissingData(f) =>
      var m := "data-" + FieldName(f) + " is required";
      ContainsPrefix("data-", m);
      ContainsMiddle("data-", FieldName(f), " is required");
      m
    case MissingElement(o, sel) =>
      var m := OptionName(o) + " '" + sel + "' does not match an element";
      ContainsPrefix(OptionName(o), m);
      ContainsMiddle(OptionName(o) + " '", sel, "' does not match an element");
      m
    case InvalidLimits(_, _) =>
      ContainsPrefix(CrossingLimitsMessage, CrossingLimitsMessage);
      CrossingLimitsMessage
    case InvalidRange(_, _) =>
      "Invalid data-range_min or data-range_max"
  }
}
