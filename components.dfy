/** The component records of a calculator schema
    (widget/src/types/component.types.ts and the `ComponentData` props of
    widget/src/components/renderers/ComponentRenderer.tsx), reduced to the
    fields the widget's logic reads, and the checkbox option values that
    both seeding and rendering compute. */
module Components {
  import opened Wrappers
  import opened Runtime

  /** `mode` of a checkboxes component; any other value behaves as
      `'advanced'`. */
  datatype CheckboxMode = Normal | Advanced

  datatype CheckboxOption = CheckboxOption(
    id: string,
    variableName: string,
    checkedValue: real,
    uncheckedValue: real,
    defaultValue: Option<real>
  )

  /** One schema component.  A field the schema leaves out is `None`; `min`,
      `max` and `step` belong to number inputs and sliders, the checkbox
      fields to `'checkboxes'` components and the text fields to `'text'`
      and result components. */
  datatype Component = Component(
    id: string,
    componentType: string,
    variableName: Option<string>,
    defaultValue: Option<real>,
    min: Option<real>,
    max: Option<real>,
    step: Option<real>,
    options: Option<seq<CheckboxOption>>,
    mode: Option<CheckboxMode>,
    aggregatedVariableName: Option<string>,
    fontSize: Option<string>,
    textAlign: Option<string>
  )

  /** `variableValues[opt.variableName] ?? opt.defaultValue ?? 0`. */
  function OptionValue(opt: CheckboxOption, variableValues: map<string, real>): (v: real)
    ensures opt.variableName in variableValues ==> v == variableValues[opt.variableName]
    ensures opt.variableName !in variableValues ==> v == opt.defaultValue.GetOr(0.0)
  {
    LookupOr(variableValues, opt.variableName, opt.defaultValue.GetOr(0.0))
  }

  /** The sum of the options' values, accumulated left to right from 0 as
      `reduce((acc, opt) => acc + value(opt), 0)` does. */
  function CheckboxSum(options: seq<CheckboxOption>, variableValues: map<string, real>): real {
    if options == [] then 0.0
    else CheckboxSum(options[..|options| - 1], variableValues) + OptionValue(options[|options| - 1], variableValues)
  }

  /** Whether a checkboxes component keeps an aggregated variable: normal
      mode and a non-empty aggregated name. */
  predicate Aggregates(c: Component) {
    c.mode == Some(Normal) && Truthy(c.aggregatedVariableName)
  }

  /** The sum reads only the options' own variables: changing any other
      variable leaves it unchanged. */
  lemma {:induction false} CheckboxSumReadsOptionsOnly(options: seq<CheckboxOption>, variableValues: map<string, real>, name: string, v: real)
    requires forall i :: 0 <= i < |options| ==> options[i].variableName != name
    ensures CheckboxSum(options, variableValues[name := v]) == CheckboxSum(options, variableValues)
  {
    if options != [] {
      CheckboxSumReadsOptionsOnly(options[..|options| - 1], variableValues, name, v);
    }
  }

  /** Setting one option variable to `v` moves the sum by `v` minus that
      variable's old value for every option that reads it. */
  lemma {:induction false} CheckboxSumAfterChange(options: seq<CheckboxOption>, variableValues: map<string, real>, i: nat, v: real)
    requires i < |options|
    requires forall j :: 0 <= j < |options| && j != i ==> options[j].variableName != options[i].variableName
    ensures CheckboxSum(options, variableValues[options[i].variableName := v]) ==
      CheckboxSum(options, variableValues) - OptionValue(options[i], variableValues) + v
  {
    var n := |options| - 1;
    var name := options[i].variableName;
    if i == n {
      var init := options[..n];
      assert forall j :: 0 <= j < |init| ==> init[j].variableName != name;
      CheckboxSumReadsOptionsOnly(init, variableValues, name, v);
    } else {
      CheckboxSumAfterChange(options[..n], variableValues, i, v);
      assert options[n].variableName != name;
    }
  }
}
