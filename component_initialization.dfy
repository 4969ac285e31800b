/** Mount-time seeding of the variable store
    (widget/src/hooks/useComponentInitialization.ts).  Every test reads the
    `variableValues` snapshot taken at mount, while every write goes to the
    store through `updateVariable`; the seeding is therefore described as the
    list of writes it issues, applied in order. */
module ComponentInitialization {
  import opened Wrappers
  import opened Runtime
  import opened Components
  import opened WidgetState

  /** One `updateVariable(name, value)` call. */
  datatype Write = Write(name: string, value: real)

  // ---------------------------------------------------------------------
  // Applying writes to the store
  // ---------------------------------------------------------------------

  /** The store after a sequence of single-key overwrites. */
  function ApplyWrites(m: map<string, real>, ws: seq<Write>): map<string, real> {
    if ws == [] then m
    else ApplyWrites(m, ws[..|ws| - 1])[ws[|ws| - 1].name := ws[|ws| - 1].value]
  }

  /** The value of the last write to `name`, if there is one. */
  function LastWrite(ws: seq<Write>, name: string): (r: Option<real>)
    ensures r.None? <==> forall i :: 0 <= i < |ws| ==> ws[i].name != name
  {
    if ws == [] then None
    else if ws[|ws| - 1].name == name then Some(ws[|ws| - 1].value)
    else LastWrite(ws[..|ws| - 1], name)
  }

  lemma ApplyWritesSnoc(m: map<string, real>, ws: seq<Write>, w: Write)
    ensures ApplyWrites(m, ws + [w]) == ApplyWrites(m, ws)[w.name := w.value]
  {
    assert (ws + [w])[..|ws|] == ws;
  }

  /** Applying two batches of writes one after the other is applying
      their concatenation. */
  lemma {:induction false} ApplyWritesAppend(m: map<string, real>, a: seq<Write>, b: seq<Write>)
    ensures ApplyWrites(m, a + b) == ApplyWrites(ApplyWrites(m, a), b)
    decreases |b|
  {
    if b == [] {
      assert a + b == a;
    } else {
      var init := b[..|b| - 1];
      var w := b[|b| - 1];
      assert a + b == (a + init) + [w];
      ApplyWritesSnoc(m, a + init, w);
      ApplyWritesAppend(m, a, init);
      assert b == init + [w];
      ApplyWritesSnoc(ApplyWrites(m, a), init, w);
    }
  }

  /** The last write to a name wins; a name never written keeps its value. */
  lemma {:induction false} ApplyWritesSpec(m: map<string, real>, ws: seq<Write>, name: string)
    ensures name in ApplyWrites(m, ws) <==> name in m || LastWrite(ws, name).Some?
    ensures LastWrite(ws, name).Some? ==> ApplyWrites(m, ws)[name] == LastWrite(ws, name).value
    ensures LastWrite(ws, name).None? && name in m ==> ApplyWrites(m, ws)[name] == m[name]
  {
    if ws != [] {
      ApplyWritesSpec(m, ws[..|ws| - 1], name);
    }
  }

  /** The last write to a name in a concatenation is its last write in the
      second part, or else in the first. */
  lemma {:induction false} LastWriteAppend(a: seq<Write>, b: seq<Write>, name: string)
    ensures LastWrite(a + b, name) == if LastWrite(b, name).Some? then LastWrite(b, name) else LastWrite(a, name)
    decreases |b|
  {
    if b == [] {
      assert a + b == a;
    } else {
      assert (a + b)[|a + b| - 1] == b[|b| - 1];
      assert (a + b)[..|a + b| - 1] == a + b[..|b| - 1];
      LastWriteAppend(a, b[..|b| - 1], name);
    }
  }

  // ---------------------------------------------------------------------
  // The writes the seeding issues
  // ---------------------------------------------------------------------

  /** The write for a component's own variable: issued when the name is
      given, non-empty and undefined in the snapshot. */
  function VariableWrite(c: Component, snapshot: map<string, real>): (ws: seq<Write>)
    ensures |ws| <= 1
    ensures ws != [] <==> Truthy(c.variableName) && c.variableName.value !in snapshot
    ensures ws != [] ==> ws[0] == Write(c.variableName.value, c.defaultValue.GetOr(0.0))
  {
    if Truthy(c.variableName) && c.variableName.value !in snapshot then
      [Write(c.variableName.value, c.defaultValue.GetOr(0.0))]
    else []
  }

  /** The writes for a checkbox component's options, in option order: one
      per option whose variable is undefined in the snapshot. */
  function OptionWrites(options: seq<CheckboxOption>, snapshot: map<string, real>): seq<Write> {
    if options == [] then []
    else
      var opt := options[|options| - 1];
      OptionWrites(options[..|options| - 1], snapshot) +
        (if opt.variableName !in snapshot then [Write(opt.variableName, opt.defaultValue.GetOr(0.0))] else [])
  }

  /** The write for the aggregated variable: in normal mode, with a name,
      when that name is undefined; its value is the snapshot sum. */
  function AggregateWrite(c: Component, snapshot: map<string, real>): (ws: seq<Write>)
    requires c.options.Some?
    ensures ws != [] <==> Aggregates(c) && c.aggregatedVariableName.value !in snapshot
    ensures ws != [] ==> ws == [Write(c.aggregatedVariableName.value, CheckboxSum(c.options.value, snapshot))]
  {
    if Aggregates(c) && c.aggregatedVariableName.value !in snapshot then
      [Write(c.aggregatedVariableName.value, CheckboxSum(c.options.value, snapshot))]
    else []
  }

  /** A checkbox component with an `options` list. */
  predicate SeedsOptions(c: Component) {
    c.componentType == "checkboxes" && c.options.Some?
  }

  /** All writes one component issues, in the order the hook issues them. */
  function ComponentWrites(c: Component, snapshot: map<string, real>): seq<Write> {
    VariableWrite(c, snapshot) +
      (if SeedsOptions(c) then OptionWrites(c.options.value, snapshot) + AggregateWrite(c, snapshot) else [])
  }

  /** All writes of the mount effect, component by component. */
  function InitialWrites(components: seq<Component>, snapshot: map<string, real>): seq<Write> {
    if components == [] then []
    else InitialWrites(components[..|components| - 1], snapshot) + ComponentWrites(components[|components| - 1], snapshot)
  }

  // ---------------------------------------------------------------------
  // Properties
  // ---------------------------------------------------------------------

  predicate OnlyUndefined(ws: seq<Write>, snapshot: map<string, real>) {
    forall i :: 0 <= i < |ws| ==> ws[i].name !in snapshot
  }

  lemma {:induction false} OptionWritesOnlyUndefined(options: seq<CheckboxOption>, snapshot: map<string, real>)
    ensures OnlyUndefined(OptionWrites(options, snapshot), snapshot)
  {
    if options != [] {
      OptionWritesOnlyUndefined(options[..|options| - 1], snapshot);
    }
  }

  lemma ComponentWritesOnlyUndefined(c: Component, snapshot: map<string, real>)
    ensures OnlyUndefined(ComponentWrites(c, snapshot), snapshot)
  {
    if SeedsOptions(c) {
      OptionWritesOnlyUndefined(c.options.value, snapshot);
    }
  }

  /** Every write of the mount effect goes to a variable undefined in the
      snapshot. */
  lemma {:induction false} InitialWritesOnlyUndefined(components: seq<Component>, snapshot: map<string, real>)
    ensures OnlyUndefined(InitialWrites(components, snapshot), snapshot)
  {
    if components != [] {
      InitialWritesOnlyUndefined(components[..|components| - 1], snapshot);
      ComponentWritesOnlyUndefined(components[|components| - 1], snapshot);
    }
  }

  /** Seeding the mount-time state never changes a defined variable and
      removes none; a variable that was undefined ends up with the value of
      the last write to it. */
  lemma SeedingKeepsDefined(components: seq<Component>, snapshot: map<string, real>)
    ensures var after := ApplyWrites(snapshot, InitialWrites(components, snapshot));
      (forall k :: k in snapshot ==> k in after && after[k] == snapshot[k]) &&
      (forall k :: k !in snapshot && LastWrite(InitialWrites(components, snapshot), k).Some? ==>
        k in after && after[k] == LastWrite(InitialWrites(components, snapshot), k).value)
  {
    var ws := InitialWrites(components, snapshot);
    InitialWritesOnlyUndefined(components, snapshot);
    forall k | k in snapshot
      ensures k in ApplyWrites(snapshot, ws) && ApplyWrites(snapshot, ws)[k] == snapshot[k]
    {
      ApplyWritesSpec(snapshot, ws, k);
    }
    forall k | k !in snapshot && LastWrite(ws, k).Some?
      ensures k in ApplyWrites(snapshot, ws) && ApplyWrites(snapshot, ws)[k] == LastWrite(ws, k).value
    {
      ApplyWritesSpec(snapshot, ws, k);
    }
  }

  /** A component that is not `'checkboxes'` issues at most its own
      variable's write: no option and no aggregate writes. */
  lemma NonCheckboxWritesOwnVariableOnly(c: Component, snapshot: map<string, real>)
    requires c.componentType != "checkboxes"
    ensures ComponentWrites(c, snapshot) == VariableWrite(c, snapshot)
    ensures |ComponentWrites(c, snapshot)| <= 1
  {
  }

  /** The aggregate of a normal-mode checkbox component is the component's
      last write, valued at the snapshot sum, whenever its name is undefined. */
  lemma AggregateIsSnapshotSum(c: Component, snapshot: map<string, real>)
    requires SeedsOptions(c) && Aggregates(c) && c.aggregatedVariableName.value !in snapshot
    ensures var ws := ComponentWrites(c, snapshot);
      |ws| > 0 && ws[|ws| - 1] == Write(c.aggregatedVariableName.value, CheckboxSum(c.options.value, snapshot))
  {
  }

  /** With every variable undefined and two non-checkbox components sharing
      a variable, both test the snapshot, both write, and the later default
      is the one that stays. */
  lemma SharedVariableLaterWins(c1: Component, c2: Component, snapshot: map<string, real>)
    requires c1.componentType != "checkboxes" && c2.componentType != "checkboxes"
    requires Truthy(c1.variableName) && c2.variableName == c1.variableName
    requires c1.variableName.value !in snapshot
    ensures var after := ApplyWrites(snapshot, InitialWrites([c1, c2], snapshot));
      c1.variableName.value in after && after[c1.variableName.value] == c2.defaultValue.GetOr(0.0)
  {
    var name := c1.variableName.value;
    var w1 := Write(name, c1.defaultValue.GetOr(0.0));
    var w2 := Write(name, c2.defaultValue.GetOr(0.0));
    assert ComponentWrites(c1, snapshot) == [w1] + [];
    assert ComponentWrites(c2, snapshot) == [w2] + [];
    assert [c1, c2][..1] == [c1];
    assert [c1][..0] == [];
    assert InitialWrites([c1], snapshot) == [] + [w1];
    var ws := InitialWrites([c1, c2], snapshot);
    assert ws == [w1] + [w2];
    ApplyWritesSpec(snapshot, ws, name);
  }

  /** Options whose variables are pairwise distinct. */
  predicate DistinctOptionNames(options: seq<CheckboxOption>) {
    forall i, j :: 0 <= i < j < |options| ==> options[i].variableName != options[j].variableName
  }

  /** With distinct option variables, the last option write to an option's
      variable carries that option's own default. */
  lemma {:induction false} OptionWritesLast(options: seq<CheckboxOption>, snapshot: map<string, real>, i: nat)
    requires i < |options| && DistinctOptionNames(options)
    requires options[i].variableName !in snapshot
    ensures LastWrite(OptionWrites(options, snapshot), options[i].variableName) == Some(options[i].defaultValue.GetOr(0.0))
  {
    var n := |options| - 1;
    var init := options[..n];
    var opt := options[n];
    var tail := if opt.variableName !in snapshot then [Write(opt.variableName, opt.defaultValue.GetOr(0.0))] else [];
    LastWriteAppend(OptionWrites(init, snapshot), tail, options[i].variableName);
    if i < n {
      assert DistinctOptionNames(init);
      OptionWritesLast(init, snapshot, i);
    }
  }

  /** Two states that give every option the same value give the same sum. */
  lemma {:induction false} CheckboxSumPointwise(options: seq<CheckboxOption>, m1: map<string, real>, m2: map<string, real>)
    requires forall i :: 0 <= i < |options| ==> OptionValue(options[i], m1) == OptionValue(options[i], m2)
    ensures CheckboxSum(options, m1) == CheckboxSum(options, m2)
  {
    if options != [] {
      CheckboxSumPointwise(options[..|options| - 1], m1, m2);
    }
  }

  /** Seeding a normal-mode checkbox component into the mount-time state
      leaves its aggregate equal to the sum of its options as they then
      stand, provided the option variables are distinct and differ from the
      component's own variable and from the aggregate. */
  lemma SeededAggregateConsistent(c: Component, snapshot: map<string, real>)
    requires SeedsOptions(c) && Aggregates(c) && c.aggregatedVariableName.value !in snapshot
    requires DistinctOptionNames(c.options.value)
    requires forall i :: 0 <= i < |c.options.value| ==>
      c.options.value[i].variableName != c.aggregatedVariableName.value &&
      c.variableName != Some(c.options.value[i].variableName)
    ensures var after := ApplyWrites(snapshot, ComponentWrites(c, snapshot));
      c.aggregatedVariableName.value in after &&
      after[c.aggregatedVariableName.value] == CheckboxSum(c.options.value, after)
  {
    var options := c.options.value;
    var agg := c.aggregatedVariableName.value;
    var vw := VariableWrite(c, snapshot);
    var ow := OptionWrites(options, snapshot);
    var aw := AggregateWrite(c, snapshot);
    var ws := ComponentWrites(c, snapshot);
    assert ws == (vw + ow) + aw;
    var after := ApplyWrites(snapshot, ws);
    ApplyWritesSpec(snapshot, ws, agg);
    LastWriteAppend(vw + ow, aw, agg);
    forall i | 0 <= i < |options|
      ensures OptionValue(options[i], after) == OptionValue(options[i], snapshot)
    {
      var name := options[i].variableName;
      ApplyWritesSpec(snapshot, ws, name);
      LastWriteAppend(vw + ow, aw, name);
      LastWriteAppend(vw, ow, name);
      if name !in snapshot {
        OptionWritesLast(options, snapshot, i);
      } else {
        OptionWritesOnlyUndefined(options, snapshot);
      }
    }
    CheckboxSumPointwise(options, after, snapshot);
  }

  // ---------------------------------------------------------------------
  // The mount effect
  // ---------------------------------------------------------------------

  /** `options.reduce((acc, opt) => acc + value(opt), 0)` over the snapshot. */
  method OptionsSum(options: seq<CheckboxOption>, variableValues: map<string, real>) returns (sum: real)
    ensures sum == CheckboxSum(options, variableValues)
  {
    sum := 0.0;
    var k := 0;
    while k < |options|
      invariant 0 <= k <= |options|
      invariant sum == CheckboxSum(options[..k], variableValues)
    {
      assert options[..k + 1][..k] == options[..k];
      sum := sum + OptionValue(options[k], variableValues);
      k := k + 1;
    }
    assert options[..|options|] == options;
  }

  /** `checkboxComp.options.forEach(...)`: seeds each undefined option
      variable with its default. */
  method SeedOptions(options: seq<CheckboxOption>, variableValues: map<string, real>, store: VariableStore)
    modifies store
    ensures store.values == ApplyWrites(old(store.values), OptionWrites(options, variableValues))
  {
    ghost var s0 := store.values;
    var j := 0;
    while j < |options|
      invariant 0 <= j <= |options|
      invariant store.values == ApplyWrites(s0, OptionWrites(options[..j], variableValues))
    {
      var opt := options[j];
      ghost var done := OptionWrites(options[..j], variableValues);
      assert options[..j + 1][..j] == options[..j];
      assert options[..j + 1][j] == opt;
      if opt.variableName !in variableValues {
        var w := Write(opt.variableName, opt.defaultValue.GetOr(0.0));
        assert OptionWrites(options[..j + 1], variableValues) == done + [w];
        ApplyWritesSnoc(s0, done, w);
        store.UpdateVariable(opt.variableName, opt.defaultValue.GetOr(0.0));
      } else {
        assert OptionWrites(options[..j + 1], variableValues) == done + [];
        assert done + [] == done;
      }
      j := j + 1;
    }
    assert options[..|options|] == options;
  }

  /** The aggregate step: in normal mode with a name that is undefined in
      the snapshot, writes the snapshot sum of the options. */
  method SeedAggregate(comp: Component, variableValues: map<string, real>, store: VariableStore)
    requires comp.options.Some?
    modifies store
    ensures store.values == ApplyWrites(old(store.values), AggregateWrite(comp, variableValues))
  {
    if comp.mode == Some(Normal) && Truthy(comp.aggregatedVariableName) {
      if comp.aggregatedVariableName.value !in variableValues {
        var sum := OptionsSum(comp.options.value, variableValues);
        ApplyWritesSnoc(store.values, [], Write(comp.aggregatedVariableName.value, sum));
        store.UpdateVariable(comp.aggregatedVariableName.value, sum);
        return;
      }
    }
    assert AggregateWrite(comp, variableValues) == [];
  }

  /** The own-variable step: writes the default when the component's
      variable is named and undefined in the snapshot. */
  method SeedVariable(comp: Component, variableValues: map<string, real>, store: VariableStore)
    modifies store
    ensures store.values == ApplyWrites(old(store.values), VariableWrite(comp, variableValues))
  {
    if Truthy(comp.variableName) && comp.variableName.value !in variableValues {
      ApplyWritesSnoc(store.values, [], Write(comp.variableName.value, comp.defaultValue.GetOr(0.0)));
      store.UpdateVariable(comp.variableName.value, comp.defaultValue.GetOr(0.0));
    }
  }

  /** The body of `components.forEach` for one component. */
  method InitializeComponent(comp: Component, variableValues: map<string, real>, store: VariableStore)
    modifies store
    ensures store.values == ApplyWrites(old(store.values), ComponentWrites(comp, variableValues))
  {
    ghost var start := store.values;
    ghost var vw := VariableWrite(comp, variableValues);
    SeedVariable(comp, variableValues, store);
    if SeedsOptions(comp) {
      ghost var ow := OptionWrites(comp.options.value, variableValues);
      ghost var aw := AggregateWrite(comp, variableValues);
      SeedOptions(comp.options.value, variableValues, store);
      SeedAggregate(comp, variableValues, store);
      ApplyWritesAppend(start, vw, ow + aw);
      ApplyWritesAppend(ApplyWrites(start, vw), ow, aw);
      assert ComponentWrites(comp, variableValues) == vw + (ow + aw);
    } else {
      assert ComponentWrites(comp, variableValues) == vw + [] == vw;
    }
  }

  /** One more component prolongs the writes by that component's own. */
  lemma InitialWritesStep(start: map<string, real>, components: seq<Component>, variableValues: map<string, real>, i: nat)
    requires i < |components|
    ensures ApplyWrites(ApplyWrites(start, InitialWrites(components[..i], variableValues)), ComponentWrites(components[i], variableValues)) ==
      ApplyWrites(start, InitialWrites(components[..i + 1], variableValues))
  {
    var next := components[..i + 1];
    assert next[..|next| - 1] == components[..i];
    assert next[|next| - 1] == components[i];
    ApplyWritesAppend(start, InitialWrites(components[..i], variableValues), ComponentWrites(components[i], variableValues));
  }

  /** The mount effect of `useComponentInitialization`: every test reads
      the snapshot `variableValues`, every write goes to the store. */
  method InitializeComponents(components: seq<Component>, variableValues: map<string, real>, store: VariableStore)
    modifies store
    ensures store.values == ApplyWrites(old(store.values), InitialWrites(components, variableValues))
  {
    ghost var s0 := store.values;
    var i := 0;
    while i < |components|
      invariant 0 <= i <= |components|
      invariant store.values == ApplyWrites(s0, InitialWrites(components[..i], variableValues))
    {
      InitialWritesStep(s0, components, variableValues, i);
      InitializeComponent(components[i], variableValues, store);
      i := i + 1;
    }
    assert components[..|components|] == components;
  }
}
