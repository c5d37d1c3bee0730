# nstSlider value engine, modelled in Dafny

nstSlider is a jQuery range slider with two grips. This project models
the part of it that does not depend on pixels or the DOM:

- **Rounding.** The `rounding` option is either a fixed step or a table of
  steps, each with a threshold. A value rounds to the nearest multiple of
  its step, and a value exactly halfway between two multiples goes down.
  For a table, the step used is the one whose threshold is the smallest
  above the value. When no threshold is above the value, the step with the
  largest threshold applies.
- **Value placement.** `set_position(a, b)` sorts the two raw values and
  places each one, then reports the placed pair smaller first. Placing rounds a value only when it lies strictly inside
  the range. A value at or before the range start becomes the lower bound,
  and a value at or after the range end becomes the upper bound. The lower
  bound is `data-lower-limit` when one is set, else the range start; the
  upper bound works the same way. Construction places `cur_min` and
  `cur_max` in the same way. `set_range` fits the selection into the new
  range without rounding it again.
- **Slider life cycle.** A slider is built, becomes active, and is torn
  down. Its accessors, its two extreme tests, and its notices to
  `value_changed_callback` with the causes `init`, `set_range` and `drag`
  are modelled. Every operation on a torn-down slider fails.
- **Validation at construction.** The four required `data-` attributes are
  checked first, in their order. Then the grip and value-bar selectors are
  checked, then crossing limits, then the range. The suite fixes which
  configurations fail, not this order (see "## Left out").
- **Shared document listeners.** These are reference-counted across all
  sliders on a page. While any slider is active, the document carries one
  move listener and one release listener, both in the `nstSlider`
  namespace. After the last teardown it carries exactly what other code had
  bound before.

The rules below are fixed by the assertions of `test/nstSlider_test.js`;
the plugin's own source is not modelled. Each row below cites the
assertions it models. Where a row states a value that no assertion checks,
the row says it is the model's prediction. Exact halves round down,
because the suite requires it: with step 10, 5 rounds to 0 (line 766) and
35 to 30 (line 771), and with the table, 450 rounds to 440 (line 801).

Modules:
- `Wrappers`: Option, Result and Outcome.
- `Rounding`: fixed and tiered rounding.
- `ValueModel`: ranges, limits, placement and the extremes.
- `Configuration`: the attributes, validation and the error messages.
- `DragCoordinator`: the shared listener registry, plus the suite's
  listener-inspection helpers.
- `SliderInstance`: the slider class and `Build`.
- `Suite`: the suite's concrete assertions, as lemmas and methods.

## Model

| member | source | states |
|---|---|---|
| Rounding.RoundToStep | test/nstSlider_test.js:754-773 | For a positive step, the result is a multiple of the step within [v - step/2, v + step/2), so ties go down. A non-positive step leaves v unchanged. |
| Rounding.RoundToStepUnique | test/nstSlider_test.js:764-773 | Any multiple of the step in that half-open window is the result. |
| Rounding.RoundToStepNearest | test/nstSlider_test.js:764-773 | No multiple of the step is strictly closer to v than the result. |
| Rounding.RoundToStepOfMultiple | test/nstSlider_test.js:767-772 | A value that is already a multiple of the step is returned unchanged (10 to 10, 1000 to 1000). |
| Rounding.RoundToStepIdempotent | test/nstSlider_test.js:764-773 | Rounding a rounded value again changes nothing. |
| Rounding.RoundToStepMonotone | test/nstSlider_test.js:764-773 | With one step, v <= w implies round(v) <= round(w). |
| Rounding.FirstAbove | test/nstSlider_test.js:777-782 | Returns the tier with the smallest threshold strictly above v, or None exactly when no threshold is above v. |
| Rounding.Largest | test/nstSlider_test.js:780-782 | Returns a tier of the table whose threshold is not below any other threshold. |
| Rounding.SelectTier | test/nstSlider_test.js:776-806 | The tier applied to v: the least threshold above v when one exists, else the greatest threshold. |
| Rounding.StepFor | test/nstSlider_test.js:754-806 | For a valid rounding the step is positive. A table's step is one of the table's steps. |
| Rounding.Round | test/nstSlider_test.js:754-806 | For a valid rounding, the result is a multiple of the selected step within the half-step window. An empty table leaves values unrounded. |
| Rounding.FixedRoundIsClosure | test/nstSlider_test.js:754-773 | Fixed-step rounding is idempotent and monotone. |
| Rounding.TieredRoundNotMonotone | test/nstSlider_test.js:776-806 | With a step change at a threshold, 499 rounds to 500 but 500 rounds to 0. So tiered rounding is not monotone. |
| ValueModel.Fit | test/nstSlider_test.js:586-626 | The result lies within [lower bound, upper bound]. A value at or before the range start gives the lower bound, and at or after the range end gives the upper bound. An interior value stays as it is when the limits do not narrow the range. |
| ValueModel.Place | test/nstSlider_test.js:542-573 | The same bounds and range-end cases as Fit. An interior value whose rounding stays inside the range lands on that rounding. |
| ValueModel.Ordered | test/nstSlider_test.js:606-630 | The result is sorted and is a permutation of its two inputs. |
| ValueModel.PositionFor | test/nstSlider_test.js:486-630 | The selection is sorted, lies within the bounds, and is a permutation of the two placed values. |
| ValueModel.Reconstrain | test/nstSlider_test.js:632-678 | The selection is sorted, lies within the new bounds, and is a permutation of the two fitted, unrounded values. |
| ValueModel.PositionForSymmetric | test/nstSlider_test.js:606-630 | Swapping the two raw values gives the same selection, so grips may cross. |
| ValueModel.FitMonotone | test/nstSlider_test.js:586-626 | Fitting preserves the order of two values. |
| ValueModel.PlaceMonotone | test/nstSlider_test.js:542-573 | With a fixed step, placing preserves the order of two raw values. |
| ValueModel.FixedStepKeepsOrder | test/nstSlider_test.js:542-573 | With a fixed step, the placed pair needs no reordering: min is the placed smaller value and max the placed larger value. |
| ValueModel.PlaceSettled | test/nstSlider_test.js:542-573 | With a fixed step and limits that do not narrow the range, placing an already placed value again changes nothing. |
| ValueModel.PositionSettled | test/nstSlider_test.js:542-573 | With a fixed step and limits that do not narrow the range, set_position with the current selection is a no-op, and so is set_range with the unchanged range. |
| ValueModel.TieredPlacementReorders | test/nstSlider_test.js:776-804 | With a table whose step changes at 500, on [0, 2000] 499 is placed at 500 and 500 at 0, and the final sort gives (0, 500). |
| ValueModel.WidenedRangeKeepsSelection | test/nstSlider_test.js:662-667 | Widening the range keeps a selection that lies inside the old range. |
| ValueModel.RangeEndsReachExtremes | test/nstSlider_test.js:370-381 | Raw values at both range ends put both grips at their extremes, whatever the rounding. |
| Configuration.CheckSelector | test/nstSlider_test.js:213-247 | A configured selector that matches nothing in the markup fails with a MissingElement error naming that option and selector. Otherwise the check passes. |
| Configuration.Validate | test/nstSlider_test.js:162-255 | Success exactly when the required fields are present, every selector resolves, the limits do not cross and min < max. A MissingData error occurs exactly when a required field is absent, and it names the first one missing. The other errors carry the offending option, selector or limits. A success carries the configured values, with cur_max defaulting to cur_min. |
| Configuration.SupplyFirstFields | test/nstSlider_test.js:194-203 | Copying the first n required attributes changes exactly those n attributes and nothing optional. |
| Configuration.IncrementalValidation | test/nstSlider_test.js:180-211 | Add the required attributes one by one to an element that has none. Each attempt before the last fails with MissingData for the next attribute. The final attempt succeeds exactly when the rest of the configuration is acceptable. |
| Configuration.Message | test/nstSlider_test.js:162-255 | A missing field's message contains "data-" and the field's name. A missing element's message contains the selector and the option name. Crossing limits give "Invalid data-lower-limit or data-upper-limit". |
| DragCoordinator.Registry.constructor | test/nstSlider_test.js:258-269 | A fresh document carries only its baseline listeners, and no slider is active. |
| DragCoordinator.Registry.Register | test/nstSlider_test.js:271-280 | A new slider gets an identity that is not active. The count rises by one, and the shared pair is bound once on top of the baseline. |
| DragCoordinator.Registry.Unregister | test/nstSlider_test.js:99-153 | The slider leaves the active set, and its drag is dropped. An inactive identity changes nothing. The invariant restores the baseline when the count reaches 0. |
| DragCoordinator.Registry.BeginDrag | test/nstSlider_test.js:258-281 | Only an active slider can become the one being dragged. |
| DragCoordinator.Registry.EndDrag | test/nstSlider_test.js:258-281 | Releasing the pointer ends any drag. |
| DragCoordinator.BoundListeners | test/nstSlider_test.js:271-280 | With a positive count, the bound event types are the baseline's plus move and release, and the namespaces are the baseline's plus nstSlider. With a count of 0, only the baseline is bound. |
| DragCoordinator.BoundEventList | test/nstSlider_test.js:26-36 | The distinct event types bound, each exactly once. |
| DragCoordinator.BoundEventNamespaces | test/nstSlider_test.js:37-58 | The distinct namespaces of the bound listeners, each exactly once. |
| DragCoordinator.DistinctCardinality | test/nstSlider_test.js:271-279 | A list without repetitions is as long as the set of its elements. |
| SliderInstance.Slider.constructor | test/nstSlider_test.js:680-752 | The slider is active, its selection is PositionFor of cur_min and cur_max, and its callback has received exactly one init notice with those values. |
| SliderInstance.Slider.GetRangeMin | test/nstSlider_test.js:283-394 | The range start of an active slider; fails after teardown. |
| SliderInstance.Slider.GetRangeMax | test/nstSlider_test.js:283-394 | The range end of an active slider; fails after teardown. |
| SliderInstance.Slider.GetCurrentMinValue | test/nstSlider_test.js:293-408 | The selection's min of an active slider; fails after teardown. |
| SliderInstance.Slider.GetCurrentMaxValue | test/nstSlider_test.js:293-408 | The selection's max of an active slider; fails after teardown. |
| SliderInstance.Slider.IsHandleToLeftExtreme | test/nstSlider_test.js:304-328 | True exactly when the min grip sits on the lower bound; fails after teardown. |
| SliderInstance.Slider.IsHandleToRightExtreme | test/nstSlider_test.js:330-368 | True exactly when the max grip sits on the upper bound; fails after teardown. |
| SliderInstance.Slider.GetRounding | test/nstSlider_test.js:754-806 | Returns the rounding exactly as configured; fails after teardown. |
| SliderInstance.Slider.RoundValue | test/nstSlider_test.js:766-804 | A multiple of the step selected for v, within [v - step/2, v + step/2), so an exact half goes down; fails after teardown. |
| SliderInstance.Slider.SetPosition | test/nstSlider_test.js:486-630 | The selection becomes PositionFor of the two raw values, and the range is unchanged. A drag notice is sent only when the selection changed. On a torn-down slider nothing changes. |
| SliderInstance.Slider.SetRange | test/nstSlider_test.js:632-733 | With min < max, the range is replaced, the selection is refitted without rounding, and a set_range notice is sent. A reversed or empty range is refused and nothing changes. |
| SliderInstance.Slider.Teardown | test/nstSlider_test.js:99-153 | The slider becomes torn down and leaves the active set, and its drag is dropped. A second teardown fails and leaves the registry unchanged. |
| SliderInstance.Build | test/nstSlider_test.js:162-281 | An invalid configuration is rejected with Validate's error and the registry is untouched. A valid one gives a fresh, active, registered slider with its init notice. |
| Suite.FixedStepRounding | test/nstSlider_test.js:754-773 | Step 10 gives 5 to 0, 6 to 10, 9 to 10, 10 to 10, 22 to 20, 35 to 30, 999 to 1000 and 1000 to 1000. |
| Suite.SuiteStep | test/nstSlider_test.js:777-782 | With the suite's table, the step is 1 below 10, 10 below 50, 20 below 500, and 100 from 500 up. |
| Suite.TieredRoundingFine | test/nstSlider_test.js:793-796 | With the table, 1, 5, 6 and 9 stay as they are. |
| Suite.TieredRoundingTens | test/nstSlider_test.js:797-799 | With the table, 10 to 10, 22 to 20 and 35 to 30. |
| Suite.TieredRoundingTwenties | test/nstSlider_test.js:801-802 | With the table, 450 to 440 and 300 to 300. |
| Suite.TieredRoundingCoarse | test/nstSlider_test.js:800-804 | With the table, 999 to 1000, 923 to 900 and 4436 to 4400. |
| Suite.SetPositionRounds | test/nstSlider_test.js:486-540 | Step 100 on [0, 1000] gives (150, 400.1) to (100, 400), (151, 560) to (200, 600) and (2, 7) to (0, 0). |
| Suite.SetPositionKeepsRangeEnds | test/nstSlider_test.js:542-573 | Step 10 on [3, 37] keeps 3 and 37, keeps (10, 30), and gives (15, 23) to (10, 20). |
| Suite.SetPositionPinsToBounds | test/nstSlider_test.js:574-630 | (50, 2000) pins to the range (100, 1000), or to the limits (80, 1100), and so does the crossed pair (2000, 50). |
| Suite.ExtremesWithoutLimits | test/nstSlider_test.js:304-368 | Without limits, the grips are at an extreme exactly when they sit on a range end, in the suite's five configurations, including step 5 with 30 and 60 (line 355). |
| Suite.ConstructionWithLimits | test/nstSlider_test.js:384-468 | With limits 1 and 100 or 1000, range-end values take the limits and are reported as extremes, and interior values are not, including step 5 with 30 and 60 (line 450). |
| Suite.ConstructionNonExactStep | test/nstSlider_test.js:370-484 | Step 7 on [2, 10] keeps both ends, or takes the limits 1 and 100, and both grips are at their extremes. |
| Suite.ConstructionAndSetRange | test/nstSlider_test.js:632-702 | cur_max 1000 on [500, 800] is constrained to 800. Then set_range to (0, 1000), (500, 800) and (700, 800) gives (500, 800), (500, 800) and (700, 800). |
| Suite.SetRangeNarrows | test/nstSlider_test.js:704-733 | Step 20 on [750, 1395] keeps both ends (lines 723-726). The suite checks only the cause of set_range(795, 1250); the selection (795, 1250) after it is the model's prediction. |
| Suite.ValidationMessages | test/nstSlider_test.js:162-250 | No attributes gives a data- error. A complete configuration succeeds. Each unmatched grip or value-bar selector is refused. The left and right grip messages contain the selector, and the value-bar message contains "value_bar_selector". |
| Suite.CrossingLimitsRejected | test/nstSlider_test.js:252-254 | Crossing limits are refused with the "Invalid data-lower-limit or data-upper-limit" message. |
| Suite.ValidationUntilComplete | test/nstSlider_test.js:180-211 | The suite's incremental sequence fails with a data- error until all four attributes are present, then succeeds. |
| Suite.EventBinding | test/nstSlider_test.js:258-281 | 0 event types before the first slider, 2 while it is active, one namespace that is nstSlider, and 0 after its teardown. |
| Suite.IdsMembers | test/nstSlider_test.js:99-153 | An identity is among a list's identities exactly when some slider in it has it. |
| Suite.IdsAppend | test/nstSlider_test.js:99-153 | Appending a slider adds exactly its identity. |
| Suite.BuildMany | test/nstSlider_test.js:85-98 | Building n sliders gives n distinct active identities registered on one document. |
| Suite.TeardownAll | test/nstSlider_test.js:99-153 | Tearing every slider down leaves no slider active. |
| Suite.TeardownRestoresBaseline | test/nstSlider_test.js:99-153 | With any number of sliders, the document carries the baseline plus the shared pair while some are active, and exactly the baseline after all are torn down. |
| Suite.CallbackCauses | test/nstSlider_test.js:632-752 | The callback hears init with (500, 800), then set_range once per set_range call with the refitted values; the cause names are the strings "init" and "set_range" that the suite compares. |

## Left out

- DOM and jQuery plumbing are not modelled: reading `data-` attributes, `.data()`, markup queries, and chainability (lines 157-160). Markup is reduced to the set of selectors that resolve.
- Pixel geometry is not modelled: grip widths, value-bar layout, and converting pointer positions to values.
- Pointer events are not modelled: a drag is reduced to BeginDrag/EndDrag and a set_position call, and no event dispatch is modelled.
- Re-initialising an already built slider with new options (lines 644-648) is not modelled; only the value_changed_callback it installs is, as the notice list.
- The teardown's check that `.data()` afterwards matches the markup (lines 113-143) concerns jQuery's data store and is not modelled.
- Numbers are exact reals. JavaScript doubles, their rounding error, and JavaScript's truncating `%` on negative values are not modelled; rounding here uses a floor-based remainder.
- ValueModel.Fit: the suite only uses limits that lie outside the range. For limits inside the range, the model clamps interior values into the limits, and that choice is not confirmed by any assertion.
- SliderInstance.Slider.SetPosition: the drag notice is sent only when the selection changed. The suite does not observe drag notices.
- Configuration.Message: the message texts are reconstructed. Only the fragments the suite matches are confirmed: "data-", the selector, "value_bar_selector", and the crossing-limits sentence.
- ValueModel.PositionFor: after placing, the pair is sorted again. With a fixed step this never changes anything (FixedStepKeepsOrder). With a table, steps can change at a threshold, and then it can: on [0, 2000], (499, 500) gives (0, 500) with the table of TieredPlacementReorders. The suite does not exercise this case.
- Configuration.Validate: the order of the checks (required fields, then selectors, then crossing limits, then the range) is a choice; the suite fixes only which configurations fail, never two failures at once.
- The `InvalidRange` check (min >= max) and cur_max defaulting to cur_min are design choices that no assertion exercises, because the implementation is not part of this model.
