/** The stepper buttons of the number input and the slider's prop defaults
    (widget/src/components/renderers/InputComponents.tsx).  A handler
    returns the value it hands to `onChange`, or `None` when it emits
    nothing. */
module InputComponents {
  import opened Wrappers

  /** `step || 1`: an undefined or zero step counts as 1. */
  function EffectiveStep(step: Option<real>): (s: real)
    ensures s != 0.0
    ensures step.Some? && step.value != 0.0 ==> s == step.value
    ensures step.None? || step.value == 0.0 ==> s == 1.0
  {
    if step.Some? && step.value != 0.0 then step.value else 1.0
  }

  /** `handleIncrement`: proposes `value + (step || 1)` and emits it unless
      it exceeds a defined `max`. */
  function HandleIncrement(value: real, step: Option<real>, max: Option<real>): (r: Option<real>)
    ensures r.Some? <==> max.None? || value + EffectiveStep(step) <= max.value
    ensures r.Some? ==> r.value - value == EffectiveStep(step) && r.value != value
    ensures r.Some? && max.Some? ==> r.value <= max.value
  {
    var newValue := value + EffectiveStep(step);
    if max.None? || newValue <= max.value then Some(newValue) else None
  }

  /** `handleDecrement`: proposes `value - (step || 1)` and emits it unless
      it falls below a defined `min`. */
  function HandleDecrement(value: real, step: Option<real>, min: Option<real>): (r: Option<real>)
    ensures r.Some? <==> min.None? || value - EffectiveStep(step) >= min.value
    ensures r.Some? ==> value - r.value == EffectiveStep(step) && r.value != value
    ensures r.Some? && min.Some? ==> r.value >= min.value
  {
    var newValue := value - EffectiveStep(step);
    if min.None? || newValue >= min.value then Some(newValue) else None
  }

  /** Decrementing undoes an emitted increment whenever the starting value
      respected `min`, and incrementing undoes an emitted decrement whenever
      it respected `max`.  This holds in the exact arithmetic of the model;
      in IEEE doubles `(v + s) - s` need not be `v` (see "Left out" in the
      README on floating point). */
  lemma StepRoundTrip(value: real, step: Option<real>, min: Option<real>, max: Option<real>)
    ensures HandleIncrement(value, step, max).Some? && (min.None? || value >= min.value) ==>
      HandleDecrement(HandleIncrement(value, step, max).value, step, min) == Some(value)
    ensures HandleDecrement(value, step, min).Some? && (max.None? || value <= max.value) ==>
      HandleIncrement(HandleDecrement(value, step, min).value, step, max) == Some(value)
  {
  }

  /** A value already at `max` cannot be incremented by a positive step,
      and one at `min` cannot be decremented by one. */
  lemma StepStopsAtBounds(step: Option<real>, min: real, max: real)
    requires EffectiveStep(step) > 0.0
    ensures HandleIncrement(max, step, Some(max)).None?
    ensures HandleDecrement(min, step, Some(min)).None?
  {
  }

  /** The range a slider uses, after its parameter defaults. */
  datatype SliderRange = SliderRange(min: real, max: real, step: real)

  /** `min = 0, max = 100, step = 1`: each default applies only when the
      prop is undefined; a given value, zero included, is kept. */
  function SliderDefaults(min: Option<real>, max: Option<real>, step: Option<real>): (r: SliderRange)
    ensures r.min == min.GetOr(0.0) && r.max == max.GetOr(100.0) && r.step == step.GetOr(1.0)
    ensures min.None? && max.None? && step.None? ==> r.min < r.max && r.step > 0.0
  {
    SliderRange(min.GetOr(0.0), max.GetOr(100.0), step.GetOr(1.0))
  }
}
