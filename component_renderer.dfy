/** The logic inside the component dispatcher
    (widget/src/components/renderers/ComponentRenderer.tsx): the value an
    input shows, the checkbox values and the checkbox change handler that
    keeps the aggregated variable up to date, and the text component's
    classes. */
module ComponentRenderer {
  import opened Wrappers
  import opened Runtime
  import opened StyleHelpers
  import opened Components
  import opened WidgetState
  import ComponentInitialization

  /** `variableValues[comp.variableName!] ?? comp.defaultValue ?? 0`; a
      missing name reads the key "undefined". */
  function DisplayedValue(variableValues: map<string, real>, comp: Component): (v: real)
    ensures PropertyKey(comp.variableName) in variableValues ==> v == variableValues[PropertyKey(comp.variableName)]
    ensures PropertyKey(comp.variableName) !in variableValues ==> v == comp.defaultValue.GetOr(0.0)
  {
    LookupOr(variableValues, PropertyKey(comp.variableName), comp.defaultValue.GetOr(0.0))
  }

  /** Seeding on mount stores what the input already showed: after a
      non-checkbox component's own seeding, it displays the same value (an
      unnamed component writes nothing). */
  lemma SeedingPreservesDisplayedValue(comp: Component, snapshot: map<string, real>)
    requires comp.componentType != "checkboxes"
    ensures DisplayedValue(ComponentInitialization.ApplyWrites(snapshot, ComponentInitialization.ComponentWrites(comp, snapshot)), comp) ==
      DisplayedValue(snapshot, comp)
  {
    var ws := ComponentInitialization.ComponentWrites(comp, snapshot);
    if Truthy(comp.variableName) {
      ComponentInitialization.ApplyWritesSpec(snapshot, ws, comp.variableName.value);
      if comp.variableName.value !in snapshot {
        assert ws == [ComponentInitialization.Write(comp.variableName.value, comp.defaultValue.GetOr(0.0))] + [];
      }
    } else {
      assert ws == [];
      assert ComponentInitialization.ApplyWrites(snapshot, ws) == snapshot;
    }
  }

  // ---------------------------------------------------------------------
  // Checkboxes
  // ---------------------------------------------------------------------

  /** The `values` object: one entry per option variable, a later option
      overwriting an earlier one of the same name. */
  function CheckboxValues(options: seq<CheckboxOption>, variableValues: map<string, real>): map<string, real> {
    if options == [] then map[]
    else
      var opt := options[|options| - 1];
      CheckboxValues(options[..|options| - 1], variableValues)[opt.variableName := OptionValue(opt, variableValues)]
  }

  /** The option variables. */
  function OptionNames(options: seq<CheckboxOption>): (names: set<string>)
    ensures forall i :: 0 <= i < |options| ==> options[i].variableName in names
    ensures forall k :: k in names ==> exists i :: 0 <= i < |options| && options[i].variableName == k
  {
    if options == [] then {}
    else
      var init := options[..|options| - 1];
      assert forall i :: 0 <= i < |init| ==> init[i] == options[i];
      OptionNames(init) + {options[|options| - 1].variableName}
  }

  /** `values` has exactly the option variables as keys. */
  lemma {:induction false} CheckboxValuesKeys(options: seq<CheckboxOption>, variableValues: map<string, real>)
    ensures CheckboxValues(options, variableValues).Keys == OptionNames(options)
  {
    if options != [] {
      CheckboxValuesKeys(options[..|options| - 1], variableValues);
    }
  }

  /** Each entry of `values` holds `current ?? default ?? 0` of the last
      option naming it. */
  lemma {:induction false} CheckboxValuesEntries(options: seq<CheckboxOption>, variableValues: map<string, real>, i: nat)
    requires i < |options|
    requires forall j :: i < j < |options| ==> options[j].variableName != options[i].variableName
    ensures options[i].variableName in CheckboxValues(options, variableValues)
    ensures CheckboxValues(options, variableValues)[options[i].variableName] == OptionValue(options[i], variableValues)
  {
    var n := |options| - 1;
    if i < n {
      var init := options[..n];
      assert init[i] == options[i];
      CheckboxValuesEntries(init, variableValues, i);
    }
  }

  /** Building `values` in the `forEach` loop. */
  method CheckboxValuesOf(options: seq<CheckboxOption>, variableValues: map<string, real>) returns (values: map<string, real>)
    ensures values == CheckboxValues(options, variableValues)
  {
    values := map[];
    var k := 0;
    while k < |options|
      invariant 0 <= k <= |options|
      invariant values == CheckboxValues(options[..k], variableValues)
    {
      assert options[..k + 1][..k] == options[..k];
      values := values[options[k].variableName := OptionValue(options[k], variableValues)];
      k := k + 1;
    }
    assert options[..|options|] == options;
  }

  /** The sum `handleCheckboxChange` accumulates: the changed option
      contributes `newValue`, every other option its rendered value. */
  method ChangedSum(options: seq<CheckboxOption>, variableValues: map<string, real>, variableName: string, newValue: real)
    returns (sum: real)
    ensures sum == CheckboxSum(options, variableValues[variableName := newValue])
  {
    sum := 0.0;
    var k := 0;
    while k < |options|
      invariant 0 <= k <= |options|
      invariant sum == CheckboxSum(options[..k], variableValues[variableName := newValue])
    {
      assert options[..k + 1][..k] == options[..k];
      var opt := options[k];
      var val := if opt.variableName == variableName then newValue else OptionValue(opt, variableValues);
      sum := sum + val;
      k := k + 1;
    }
    assert options[..|options|] == options;
  }

  /** `handleCheckboxChange(variableName, newValue)`: sets the changed
      variable and, in normal mode with an aggregated name, the aggregate to
      the sum of the options with the change applied to the values the
      component was rendered with.  Nothing else is written. */
  method HandleCheckboxChange(comp: Component, options: seq<CheckboxOption>, variableValues: map<string, real>,
                              variableName: string, newValue: real, store: VariableStore)
    modifies store
    ensures Aggregates(comp) ==>
      store.values == old(store.values)[variableName := newValue]
        [comp.aggregatedVariableName.value := CheckboxSum(options, variableValues[variableName := newValue])]
    ensures !Aggregates(comp) ==> store.values == old(store.values)[variableName := newValue]
  {
    store.UpdateVariable(variableName, newValue);
    if comp.mode == Some(Normal) && Truthy(comp.aggregatedVariableName) {
      var sum := ChangedSum(options, variableValues, variableName, newValue);
      store.UpdateVariable(comp.aggregatedVariableName.value, sum);
    }
  }

  /** In normal mode, when the component was rendered from the store's own
      values and the aggregate is not itself an option, the aggregate after
      a change equals the sum of the options in the new state. */
  lemma ChangeKeepsAggregateConsistent(options: seq<CheckboxOption>, values: map<string, real>, agg: string,
                                       variableName: string, newValue: real)
    requires forall i :: 0 <= i < |options| ==> options[i].variableName != agg
    ensures var after := values[variableName := newValue][agg := CheckboxSum(options, values[variableName := newValue])];
      after[agg] == CheckboxSum(options, after)
  {
    CheckboxSumReadsOptionsOnly(options, values[variableName := newValue], agg, CheckboxSum(options, values[variableName := newValue]));
  }

  // ---------------------------------------------------------------------
  // Text components
  // ---------------------------------------------------------------------

  /** The `'text'` component's font-size and alignment classes, from its
      own inline maps with `comp.fontSize || 'medium'` and
      `comp.textAlign || 'left'`; they agree with the shared helpers. */
  function TextClasses(comp: Component): (r: (string, string))
    ensures r.0 == GetFontSizeClass(comp.fontSize) && r.1 == GetTextAlignClass(comp.textAlign)
    ensures !Truthy(comp.fontSize) || comp.fontSize.value !in FontSizeClasses ==> r.0 == "text-base"
    ensures !Truthy(comp.textAlign) || comp.textAlign.value !in TextAlignClasses ==> r.1 == "text-left"
  {
    var sizeKey := if Truthy(comp.fontSize) then comp.fontSize.value else "medium";
    var alignKey := if Truthy(comp.textAlign) then comp.textAlign.value else "left";
    (if sizeKey in FontSizeClasses then FontSizeClasses[sizeKey] else "text-base",
     if alignKey in TextAlignClasses then TextAlignClasses[alignKey] else "text-left")
  }
}
