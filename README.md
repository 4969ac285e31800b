# Calculator widget core, modelled in Dafny

The calculator widget is an embeddable Preact widget that renders a calculator from a schema. The schema holds input components, named formulas and result sections. This project models the logic behind the widget's screen and proves properties of it:

- **Formula evaluation.** An expression is sanitised and its identifiers are seeded with 0. The formulas are folded into the scope by a fixed-point loop bounded by `2 * |formulas|` passes, which sets every formula still unresolved after a pass with no progress to 0. The expression is then evaluated, and every failure and every non-number becomes 0.
- **The template parser.** It runs two passes over result text, `{name}` first and then `{formula:NAME}`.
- **The conditional rule engine.** Conditions compare a variable or a formula with a constant. A conditional line is an if / elseif / else chain, and the first matching block supplies the message and style.
- **Mount-time seeding.** On mount the variable store is seeded with component defaults, checkbox options and checkbox aggregates.
- **The component handlers.** The checkbox change handler keeps the aggregated variable equal to the sum of the options. The number-input stepper respects `min` / `max`, and slider defaults are modelled too.
- **The result renderers and sections.** This covers the style tables, the scan in `ConditionalResult` and the legacy `content` format of a result section.

The model takes two forms, following the source:

- **Imperative code keeps its loops.** This covers `buildScopeWithFormulas`, `setDefaultVariableValues`, `evaluateConditionalLine`, the scan in `ConditionalResult`, the mount effect and the checkbox handler. These become methods over classes with mutable fields: the scope object is `VariableScope`, the widget's `variableValues` state is `VariableStore`, and each `updateVariable` call is one `UpdateVariable` call. Each method is proved equal to a specification function.
- **Pure code becomes functions.** The properties are stated as lemmas about those functions.

The runtime the widget calls but does not contain is a set of parameters, so every result holds for any behaviour of them:

- the `expr-eval` evaluator, an `Evaluator` that returns `None` when it throws;
- `String(n)`, `n.toFixed(2)` and `parseFloat`, fields of `Runtime.Host`.

Numbers are mathematical reals.

Three behaviours of the code are easy to miss:

- **A condition value that does not parse as a number (NaN).** `parseFloat` yields NaN (widget/src/hooks/useConditionalLogic.ts:79). Every comparison with NaN is then false except `not_equal`, because `a != b` against NaN is true (useConditionalLogic.ts:53, 82; `NotANumberOnlyNotEqual`).
- **The legacy `formula` field of a condition.** It is consulted only when `targetType` is neither `'variable'` nor `'formula'` (useConditionalLogic.ts:61-75; `LegacyFieldIgnoredWithTargetType`).
- **Formula placeholders.** `{formula:NAME}` accepts any non-empty name without `}`, not only identifiers (widget/src/utils/contentParser.ts:31; `FormulasPlaceholder`).

## Model

| member | source | states |
|---|---|---|
| FormulaHelpers.VariableScope.constructor | widget/src/utils/formulaHelpers.ts:35 | the scope object starts as a copy of the given entries |
| FormulaHelpers.SanitizeExpression | widget/src/utils/formulaHelpers.ts:16-18 | same length; each of U+00A0, U+2000..U+200B, U+202F, U+205F, U+3000 becomes a space, every other character is kept at its position |
| FormulaHelpers.SanitizeIdempotent | widget/src/utils/formulaHelpers.ts:16-18 | sanitising twice equals sanitising once, and no Unicode space variant survives |
| FormulaHelpers.SanitizeNoop | widget/src/utils/formulaHelpers.ts:16-18 | an expression without those characters is returned unchanged |
| FormulaHelpers.IdentRun | widget/src/utils/formulaHelpers.ts:86 | the greedy run of `[a-zA-Z0-9_]` characters: all of them are identifier characters and the next one is not |
| FormulaHelpers.Identifiers | widget/src/utils/formulaHelpers.ts:86-87 | every match of `/[a-zA-Z_][a-zA-Z0-9_]*/g` is an identifier; completeness is stated by `IdentifiersSplit`, `IdentifiersOfWord` and `IdentifiersOfSeparator` |
| FormulaHelpers.IdentRunOver | widget/src/utils/formulaHelpers.ts:86 | the run stops exactly at the end of a word followed by a non-identifier character |
| FormulaHelpers.IdentifiersSplit | widget/src/utils/formulaHelpers.ts:86-87 | splitting the text in front of a character outside `[a-zA-Z0-9_]` splits the match list: no match spans such a character |
| FormulaHelpers.IdentifiersOfWord | widget/src/utils/formulaHelpers.ts:86-87 | in a word of `[a-zA-Z0-9_]` characters the leading digits are skipped and the rest is exactly one match, none when the word is all digits |
| FormulaHelpers.IdentifiersOfSeparator | widget/src/utils/formulaHelpers.ts:86-87 | a character outside `[a-zA-Z0-9_]` yields no match |
| FormulaHelpers.SeedDefaultsSpec | widget/src/utils/formulaHelpers.ts:85-94 | seeding adds exactly the missing identifiers, each with 0, and changes no existing entry |
| FormulaHelpers.SetDefaultVariableValues | widget/src/utils/formulaHelpers.ts:85-94 | the loop updates the scope in place to the seeded scope: keys grow by the identifiers, old entries keep their values |
| FormulaHelpers.BuildScopeSpec | widget/src/utils/formulaHelpers.ts:29-77 | result keys are the input keys plus the formula names; non-formula inputs keep their value; each formula name is settled by one of the passes the loop runs: the first formula of that name to evaluate successfully in that pass, against the scope as the pass left it just before that formula, or 0 from the zero fill after a pass with no progress; every formula is resolved; at most \|names\|+1 passes, within the `2*\|formulas\|` bound |
| FormulaHelpers.NoProgressSetsAllToZero | widget/src/utils/formulaHelpers.ts:64-73 | a first pass in which every formula throws ends the loop after one pass with every formula name at 0 |
| FormulaHelpers.CyclicPairDegradesToZero | widget/src/utils/formulaHelpers.ts:43-74 | the cycle `a = b+1, b = a+1` gives `{a: 0, b: 0}` after one pass |
| FormulaHelpers.ForwardReferenceResolves | widget/src/utils/formulaHelpers.ts:43-74 | `[b = a+1, a = 5]` gives `{a: 5, b: 6}` after two passes (a retried forward reference) |
| FormulaHelpers.DeclarationOrderChainOnePass | widget/src/utils/formulaHelpers.ts:47-62 | `[a = 5, b = a+1]` resolves in a single pass |
| FormulaHelpers.DuplicateNameFirstWins | widget/src/utils/formulaHelpers.ts:43-74 | `[a = 1, a = 2]` gives `{a: 1}`; because the resolved set never reaches `formulas.length`, a second pass without progress runs |
| FormulaHelpers.RunPassFirstSuccess | widget/src/utils/formulaHelpers.ts:47-62 | a name a pass resolves holds the value of the first formula of that name to evaluate successfully, against the scope just before its turn; later formulas of that name are skipped |
| FormulaHelpers.IterateSettles | widget/src/utils/formulaHelpers.ts:43-74 | every formula name not yet resolved is settled by a later pass or by the zero fill |
| FormulaHelpers.BuildScopeWithFormulas | widget/src/utils/formulaHelpers.ts:29-77 | the while / forEach / zero-fill loops return a fresh scope equal to the specified fixed point, without touching the input scope object |
| FormulaHelpers.FindFormula | widget/src/hooks/useConditionalLogic.ts:64 | `formulas.find(f => f.name === name)`: `None` iff no formula has the name, otherwise the first one with it |
| FormulaEvaluation.Lift | widget/src/hooks/useFormulaEvaluation.ts:24 | the scope copy has exactly the variables, each as a number |
| FormulaEvaluation.Coerce | widget/src/hooks/useFormulaEvaluation.ts:32-36 | a number result is returned; a thrown evaluation or a non-number gives 0 |
| FormulaEvaluation.FullScopeSpec | widget/src/hooks/useFormulaEvaluation.ts:21-30 | the final scope holds the variables, the expression's identifiers and the formula names; non-formula variables keep their value; other identifiers hold 0; each formula name is settled, as in `BuildScopeSpec`, by the loop run from the seeded scope |
| FormulaEvaluation.SanitizedOnce | widget/src/hooks/useFormulaEvaluation.ts:21 | an expression and its sanitised form evaluate alike |
| FormulaEvaluation.FormulaValueOutcome | widget/src/hooks/useFormulaEvaluation.ts:32-37 | the result is the evaluator's number, or 0 when it throws or returns a non-number |
| FormulaEvaluation.NonBreakingSpacesExample | widget/src/hooks/useFormulaEvaluation.ts:20-21 | `a`, U+00A0, `+`, U+00A0, `1` with `a = 2` evaluates to 3, as the plain-spaced `a + 1` does |
| FormulaEvaluation.EvaluateFormula | widget/src/hooks/useFormulaEvaluation.ts:16-38 | the method computes `FormulaValue` on a fresh scope copy and never fails |
| FormulaEvaluation.SeedingShadowsForwardReference | widget/src/hooks/useFormulaEvaluation.ts:27-30 | as written, `a+b` over `[b = a+1, a = 5]` evaluates to 6: the seeded `a = 0` is read by `b` |
| FormulaEvaluation.IntendedSeeds | widget/src/hooks/useFormulaEvaluation.ts:27 | corrected seeding: an identifier is seeded iff it is in the expression and names no formula |
| FormulaEvaluation.IntendedSeedingLeavesFormulaNamesUnset | widget/src/hooks/useFormulaEvaluation.ts:27-30 | with the correction, formula names that are not variables are absent before the loop, other identifiers are seeded with 0, variables keep their values |
| FormulaEvaluation.IntendedAgreesWithoutFormulaNames | widget/src/hooks/useFormulaEvaluation.ts:27-33 | the correction changes nothing for an expression that names no formula |
| FormulaEvaluation.IntendedForwardReference | widget/src/hooks/useFormulaEvaluation.ts:27-33 | with the correction, `a+b` over `[b = a+1, a = 5]` evaluates to 11 |
| ConditionalLogic.OperatorFor | widget/src/hooks/useConditionalLogic.ts:47-54 | the operator table is defined for exactly the six operator names |
| ConditionalLogic.Compare | widget/src/hooks/useConditionalLogic.ts:47-54 | each operator is its numeric comparison; against NaN every operator is false except `not_equal` |
| ConditionalLogic.VariableTargetCompares | widget/src/hooks/useConditionalLogic.ts:61-62 | a variable target compares the variable's value, or 0 when absent |
| ConditionalLogic.MissingFormulaNeverMatches | widget/src/hooks/useConditionalLogic.ts:63-68 | a formula target naming no formula is false under every operator and value |
| ConditionalLogic.FormulaTargetCompares | widget/src/hooks/useConditionalLogic.ts:63-68 | a formula target compares the first formula of that name, evaluated |
| ConditionalLogic.LegacyFieldIgnoredWithTargetType | widget/src/hooks/useConditionalLogic.ts:61-75 | the legacy `formula` field is ignored whenever a target type is given |
| ConditionalLogic.LegacyFieldIsFormulaTarget | widget/src/hooks/useConditionalLogic.ts:70-75 | without a target type, a non-empty legacy field acts as a formula target |
| ConditionalLogic.UntargetedNeverMatches | widget/src/hooks/useConditionalLogic.ts:77 | no target type and no legacy field: the condition is false |
| ConditionalLogic.UnknownOperatorNeverMatches | widget/src/hooks/useConditionalLogic.ts:80-82 | an operator outside the table makes the condition false |
| ConditionalLogic.NotANumberOnlyNotEqual | widget/src/hooks/useConditionalLogic.ts:79-82 | with a NaN value, a condition holds iff its target resolves and the operator is `not_equal` |
| ConditionalLogic.FirstMatch | widget/src/hooks/useConditionalLogic.ts:89-116 | `None` iff no block matches; otherwise the index of a matching block with no match before it |
| ConditionalLogic.IfAndElseIfAlike | widget/src/hooks/useConditionalLogic.ts:91-109 | `if` and `elseif` blocks are evaluated identically |
| ConditionalLogic.LegacyConditionIgnoredWithConditions | widget/src/hooks/useConditionalLogic.ts:98-109 | a non-empty `conditions` list overrides the legacy `condition` |
| ConditionalLogic.BareBlockNeverMatches | widget/src/hooks/useConditionalLogic.ts:96-111 | a condition block with neither field never matches |
| ConditionalLogic.FirstMatchAppend | widget/src/hooks/useConditionalLogic.ts:89-114 | blocks after a match are never examined; without an earlier match, a later match is shifted by the prefix length |
| ConditionalLogic.LineResultSpec | widget/src/hooks/useConditionalLogic.ts:86-117 | `null` iff the blocks are missing, empty or none matches; otherwise the first match's parsed message and its style |
| ConditionalLogic.OrElseExample | widget/src/hooks/useConditionalLogic.ts:86-117 | `if x > 5 or y > 5 then M1 else M2` gives M1 for x = 10, y = 0 and M2 for x = y = 0 |
| ConditionalLogic.BlockIsMatch | widget/src/hooks/useConditionalLogic.ts:96-109 | a non-`else` block's `isMatch`: `some` under `or`, `every` otherwise, the legacy single condition without a condition list, false with neither |
| ConditionalLogic.SomeHolds | widget/src/hooks/useConditionalLogic.ts:101 | the early-stopping `some` loop returns true iff some condition holds |
| ConditionalLogic.EveryHolds | widget/src/hooks/useConditionalLogic.ts:104 | the early-stopping `every` loop returns true iff every condition holds |
| ConditionalLogic.EvaluateConditionalLine | widget/src/hooks/useConditionalLogic.ts:86-117 | the early-return loop computes `LineResult` |
| ContentParser.VariableNameLength | widget/src/utils/contentParser.ts:25 | a positive length means `{`, an identifier of exactly that length and `}` start the text; 0 when the text does not start with `{` |
| ContentParser.VariablePlaceholderLength | widget/src/utils/contentParser.ts:25 | the converse: a `{name}` placeholder whose name is an identifier is found with exactly that name |
| ContentParser.VariablesPrefix | widget/src/utils/contentParser.ts:25-28 | text without `{` passes through pass 1 unchanged |
| ContentParser.VariablesPlaceholder | widget/src/utils/contentParser.ts:25-28 | `{name}` becomes `String(value)` for a defined variable and stays verbatim otherwise; scanning resumes after it |
| ContentParser.VariablesSkipFormulaToken | widget/src/utils/contentParser.ts:25-28 | pass 1 never matches a `{formula:` token |
| ContentParser.NonBraceRun | widget/src/utils/contentParser.ts:31 | the longest `}`-free prefix, stopped at a `}` |
| ContentParser.FormulaNameLength | widget/src/utils/contentParser.ts:31 | a positive length means `{formula:`, a `}`-free name of that length and `}` start the text |
| ContentParser.FormulasPrefix | widget/src/utils/contentParser.ts:31-43 | text without `{` passes through pass 2 unchanged |
| ContentParser.FormulasPlaceholder | widget/src/utils/contentParser.ts:31-43 | `{formula:NAME}` becomes the first formula of that name evaluated with `toFixed(2)`, and stays verbatim when there is none |
| ContentParser.ParseResultContent | widget/src/utils/contentParser.ts:16-22 | empty content gives the empty string |
| ContentParser.NoPlaceholderUnchanged | widget/src/utils/contentParser.ts:16-46 | content without `{` is returned unchanged |
| ContentParser.FormulasSkipVariablePlaceholder | widget/src/utils/contentParser.ts:31-43 | pass 2 leaves a `{name}` placeholder alone |
| ContentParser.UndefinedPlaceholderVerbatim | widget/src/utils/contentParser.ts:25-43 | a placeholder of an undefined variable survives both passes verbatim |
| ContentParser.UnknownPlaceholderExample | widget/src/utils/contentParser.ts:16-46 | `{unknown}` with no variables and no formulas stays `{unknown}` |
| ContentParser.VariableThenFormula | widget/src/utils/contentParser.ts:16-46 | text with a variable placeholder and then a formula placeholder: pass 1 replaces the first, pass 2 the second, the rest is kept |
| ContentParser.TotalAndTaxExample | widget/src/utils/contentParser.ts:16-46 | `Total: {total} ({formula:tax})` with `total = 100`, `tax = total*0.1` gives `Total: 100 (10.00)` |
| WidgetState.VariableStore.UpdateVariable | widget/src/components/CalculatorWidget.tsx:38-40 | a single-key overwrite that keeps every other variable |
| Components.OptionValue | widget/src/hooks/useComponentInitialization.ts:41 | `variableValues[opt.variableName] ?? opt.defaultValue ?? 0` |
| Components.CheckboxSumReadsOptionsOnly | widget/src/hooks/useComponentInitialization.ts:40-42 | the options' sum is unchanged by writes to non-option variables |
| Components.CheckboxSumAfterChange | widget/src/components/renderers/ComponentRenderer.tsx:103-109 | setting one (uniquely named) option to `v` moves the sum by `v` minus its old value |
| ComponentInitialization.LastWrite | widget/src/hooks/useComponentInitialization.ts:18-48 | `None` iff no write targets the name |
| ComponentInitialization.ApplyWritesAppend | widget/src/hooks/useComponentInitialization.ts:18-48 | two batches of `updateVariable` calls compose |
| ComponentInitialization.ApplyWritesSpec | widget/src/hooks/useComponentInitialization.ts:18-48 | the last write to a name wins; an unwritten name keeps its value |
| ComponentInitialization.VariableWrite | widget/src/hooks/useComponentInitialization.ts:21-24 | a write happens iff the name is non-empty and undefined in the snapshot, and it writes `defaultValue ?? 0` |
| ComponentInitialization.AggregateWrite | widget/src/hooks/useComponentInitialization.ts:38-44 | a write happens iff normal mode, a non-empty name undefined in the snapshot; it writes the snapshot sum |
| ComponentInitialization.InitialWritesOnlyUndefined | widget/src/hooks/useComponentInitialization.ts:19-47 | every mount write targets a variable undefined in the snapshot |
| ComponentInitialization.SeedingKeepsDefined | widget/src/hooks/useComponentInitialization.ts:19-47 | seeding never changes or removes a defined variable; an undefined one gets its last write |
| ComponentInitialization.NonCheckboxWritesOwnVariableOnly | widget/src/hooks/useComponentInitialization.ts:21-27 | a non-checkbox component writes at most its own variable |
| ComponentInitialization.AggregateIsSnapshotSum | widget/src/hooks/useComponentInitialization.ts:38-44 | the aggregate is the component's last write, valued at the snapshot sum |
| ComponentInitialization.SharedVariableLaterWins | widget/src/hooks/useComponentInitialization.ts:19-24 | two components sharing an undefined variable both write, and the later default stays |
| ComponentInitialization.OptionWritesLast | widget/src/hooks/useComponentInitialization.ts:31-35 | with distinct option variables, each undefined option gets its own default |
| ComponentInitialization.SeededAggregateConsistent | widget/src/hooks/useComponentInitialization.ts:26-45 | after seeding, the aggregate equals the sum of the options as they then stand (distinct option names, aggregate not an option) |
| ComponentInitialization.OptionsSum | widget/src/hooks/useComponentInitialization.ts:40-42 | the reduce loop computes the left-folded options sum over the snapshot |
| ComponentInitialization.SeedOptions | widget/src/hooks/useComponentInitialization.ts:31-35 | the forEach loop applies exactly the option writes |
| ComponentInitialization.SeedAggregate | widget/src/hooks/useComponentInitialization.ts:38-44 | applies exactly the aggregate write |
| ComponentInitialization.SeedVariable | widget/src/hooks/useComponentInitialization.ts:21-24 | applies exactly the own-variable write |
| ComponentInitialization.InitializeComponent | widget/src/hooks/useComponentInitialization.ts:20-46 | applies exactly the component's writes, in order |
| ComponentInitialization.InitializeComponents | widget/src/hooks/useComponentInitialization.ts:18-48 | the mount effect applies exactly the specified writes, all tests reading the snapshot |
| ComponentRenderer.DisplayedValue | widget/src/components/renderers/ComponentRenderer.tsx:53 | the stored value (a missing name reads key "undefined"), else `defaultValue ?? 0` |
| ComponentRenderer.SeedingPreservesDisplayedValue | widget/src/components/renderers/ComponentRenderer.tsx:53 | after its own seeding writes, every non-checkbox input displays the value it displayed before (an unnamed one writes nothing) |
| ComponentRenderer.OptionNames | widget/src/components/renderers/ComponentRenderer.tsx:92-95 | the set of option variables, in both directions |
| ComponentRenderer.CheckboxValuesKeys | widget/src/components/renderers/ComponentRenderer.tsx:92-95 | `values` has exactly the option variables as keys |
| ComponentRenderer.CheckboxValuesEntries | widget/src/components/renderers/ComponentRenderer.tsx:92-95 | each entry of `values` holds the value of the last option naming it |
| ComponentRenderer.CheckboxValuesOf | widget/src/components/renderers/ComponentRenderer.tsx:92-95 | the forEach loop builds `values` |
| ComponentRenderer.ChangedSum | widget/src/components/renderers/ComponentRenderer.tsx:103-109 | the handler's sum is the options' sum with the change applied |
| ComponentRenderer.HandleCheckboxChange | widget/src/components/renderers/ComponentRenderer.tsx:97-112 | writes the changed variable and, exactly in normal mode with an aggregated name, the aggregate with that sum; nothing else |
| ComponentRenderer.ChangeKeepsAggregateConsistent | widget/src/components/renderers/ComponentRenderer.tsx:97-112 | rendered from the store's values, the aggregate after a change equals the options' sum in the new state |
| ComponentRenderer.TextClasses | widget/src/components/renderers/ComponentRenderer.tsx:177-189 | the text component's inline maps agree with the shared helpers and fall back to `text-base` / `text-left` |
| InputComponents.EffectiveStep | widget/src/components/renderers/InputComponents.tsx:36 | `step \|\| 1`: never 0, a given non-zero step is kept |
| InputComponents.HandleIncrement | widget/src/components/renderers/InputComponents.tsx:35-40 | emits iff no `max` or the new value is within it; the emitted value is one step up and within `max` |
| InputComponents.HandleDecrement | widget/src/components/renderers/InputComponents.tsx:42-47 | emits iff no `min` or the new value is within it; one step down and within `min` |
| InputComponents.StepRoundTrip | widget/src/components/renderers/InputComponents.tsx:35-47 | a decrement undoes an emitted increment and vice versa, when the start respected the other bound |
| InputComponents.StepStopsAtBounds | widget/src/components/renderers/InputComponents.tsx:35-47 | at `max` (resp. `min`) a positive step emits nothing |
| InputComponents.SliderDefaults | widget/src/components/renderers/InputComponents.tsx:106-108 | `min = 0, max = 100, step = 1` apply only to undefined props; the all-default range is non-empty with a positive step |
| StyleHelpers.GetResultStyleClass | widget/src/utils/styleHelpers.ts:10-19 | one of the four classes; success, warning and error have their own, everything else gets the default gray |
| StyleHelpers.GetFontSizeClass | widget/src/utils/styleHelpers.ts:24-32 | a table class; a non-empty known size gives its entry, anything else `text-base` |
| StyleHelpers.GetTextAlignClass | widget/src/utils/styleHelpers.ts:37-44 | a table class; a non-empty known alignment gives its entry, anything else `text-left` |
| StyleHelpers.ResultStyleClassDistinguishes | widget/src/utils/styleHelpers.ts:10-19 | two styles get the same class iff they are equal or both fall back to the default |
| StyleHelpers.FontSizeFallbackIsMedium | widget/src/utils/styleHelpers.ts:24-32 | every fallback equals the `medium` entry |
| StyleHelpers.TextAlignFallbackIsLeft | widget/src/utils/styleHelpers.ts:37-44 | every fallback equals the `left` entry |
| ResultRenderer.FontSizeClass | widget/src/components/renderers/ResultRenderer.tsx:34-39 | the renderer's inline map with the `'medium'` parameter default agrees with `getFontSizeClass` |
| ResultRenderer.TextAlignClass | widget/src/components/renderers/ResultRenderer.tsx:41-45 | the inline map with the `'left'` default agrees with `getTextAlignClass` |
| ResultRenderer.RegularResult | widget/src/components/renderers/ResultRenderer.tsx:27-52 | shows the parsed content in the given style class with the shared size and alignment classes |
| ResultRenderer.BlockStyleClass | widget/src/components/renderers/ResultRenderer.tsx:84 | `getResultStyleClass(style \|\| 'default')` |
| ResultRenderer.SingleBlockLine | widget/src/components/renderers/ResultRenderer.tsx:74-75 | asked about one block, `evaluateConditionalLine` is non-null iff the block matches |
| ResultRenderer.ConditionalViewMatchesLine | widget/src/components/renderers/ResultRenderer.tsx:66-97 | the component renders nothing iff `evaluateConditionalLine` on all blocks is null, and otherwise that line's message and style |
| ResultRenderer.ConditionalResult | widget/src/components/renderers/ResultRenderer.tsx:66-101 | the per-block scan with `break` renders the first matching block |
| ResultSection.GetConditionalStyleClasses | widget/src/components/sections/ResultSection.tsx:32-43 | success, warning and error have their classes, every other style is gray |
| ResultSection.GrayExactlyForUnmarkedStyles | widget/src/components/sections/ResultSection.tsx:32-43 | gray iff the style is none of the three marked ones |
| ResultSection.SectionLines | widget/src/components/sections/ResultSection.tsx:55 | present `lines` win (even empty); else non-empty legacy content is one regular line `legacy`; else no lines |
| ResultSection.LineKind | widget/src/components/sections/ResultSection.tsx:64 | `line.type \|\| 'regular'` |
| ResultSection.RenderSection | widget/src/components/sections/ResultSection.tsx:63-91 | one rendered entry per line, in order |
| ResultSection.MissingTypeIsRegular | widget/src/components/sections/ResultSection.tsx:64-72 | an untyped line renders as a regular line |
| ResultSection.UnknownTypeRendersNothing | widget/src/components/sections/ResultSection.tsx:90 | a line of any other type renders nothing |
| ResultSection.ConditionalSkipRule | widget/src/components/sections/ResultSection.tsx:73-87 | a conditional line renders nothing iff its result is null or has an empty message; otherwise the message in its style's box |
| ResultSection.LegacyContentSection | widget/src/components/sections/ResultSection.tsx:55 | a legacy section renders its parsed content on one line, or nothing when empty |
| ResultSection.LinesOverrideContent | widget/src/components/sections/ResultSection.tsx:55 | with `lines` present, the legacy content has no effect |

## Left out

- Floating point is not modelled: numbers are reals. There is no rounding, no `Infinity` and no NaN arithmetic. NaN appears only as the `None` of `parseFloat`. The sums therefore do not model the non-associativity of floating-point addition; their left-to-right order is kept anyway.
- The `expr-eval` parser and the conversions `String(n)`, `toFixed(2)` and `parseFloat` are parameters (`Runtime.Host`, `Runtime.Evaluator`). Nothing is assumed of them beyond what individual example lemmas require.
- Object-prototype keys such as `toString` and `constructor` are treated as absent from the variable and scope objects. JavaScript would find inherited members under those names.
- ConditionalLogic.OperatorFor: an operator name that is an inherited `Object.prototype` member (`toString`, `constructor`, `valueOf`, `hasOwnProperty`, `__proto__` and the like) is treated as absent from the `operators` table. In the source `operators[name]` finds the inherited member, so such a condition returns a truthy non-boolean (`toString`, `constructor`) or throws; modelling it would mean modelling the prototype chain.
- ConditionalLogic.UnknownOperatorNeverMatches: for the same reason, its "never matches" covers names outside the six operators that are not inherited `Object.prototype` members; the inherited names are not covered.
- ConditionalLogic.NotANumberOnlyNotEqual: its "false for every other operator" likewise excludes the inherited `Object.prototype` member names.
- StyleHelpers.GetResultStyleClass: a style name that is an inherited `Object.prototype` member is treated as absent and gives the `default` style's class. In the source the lookup returns the inherited function, which then becomes the class string.
- StyleHelpers.GetFontSizeClass: an inherited `Object.prototype` member name is treated as absent and gives the default class. In the source the lookup returns the inherited function.
- StyleHelpers.GetTextAlignClass: an inherited `Object.prototype` member name is treated as absent and gives the default class. In the source the lookup returns the inherited function.
- StyleHelpers.ResultStyleClassDistinguishes: its "every other style looks like `default`" excludes the inherited `Object.prototype` member names, for the same reason.
- StyleHelpers.FontSizeFallbackIsMedium: its "any other size renders as medium" excludes the inherited `Object.prototype` member names.
- StyleHelpers.TextAlignFallbackIsLeft: its "any other alignment renders as left" excludes the inherited `Object.prototype` member names.
- ResultRenderer.FontSizeClass, ResultRenderer.TextAlignClass and ComponentRenderer.TextClasses: their inline maps have the same gap for inherited `Object.prototype` member names.
- `console.error`, the network fetch of the schema, Preact hooks, memoisation (`useCallback`) and re-rendering are not modelled.
- The mount effect runs once with the components present at mount. A schema loaded later is not seeded; the model takes the list the effect sees.
- ComponentInitialization.AggregateWrite: a present `options` key whose value is `null` is not modelled. The source would write an aggregate of 0 in that case. The model's `options` is either absent or a list.
- Absent `message` or `content` fields are read as the empty string. The source gets the same result two ways: `\|\| ''` at ComponentRenderer.tsx:199 and ResultRenderer.tsx:83, and `parseResultContent`'s own `if (!content) return ''` (contentParser.ts:22) at ResultSection.tsx:70 and useConditionalLogic.ts:92 and :112.
- ComponentRenderer.HandleCheckboxChange takes the option list as a parameter (`comp.options`). The source would throw on an undefined list, but its change handler is reachable only from rendered options.
- The view markup is not modelled: JSX, class strings other than the style tables, the slider's percentage, the `'Text Display'` fallback, and the input's `Number(e.target.value)` conversion.
- The component dispatch of `resultRegular` and `resultConditional` (ComponentRenderer.tsx lines 198-228) is covered only through `RegularResult`, `ConditionalResult` and the style helpers. The dropdown, radio and categorical renderers are not part of this model.

## Findings

| source | as written | input that shows it | evidently intended | confidence | as-written member | corrected member |
|---|---|---|---|---|---|---|
| widget/src/hooks/useFormulaEvaluation.ts:27-30 | every identifier of the expression, formula names included, is seeded with 0 before `buildScopeWithFormulas`, so a formula that refers forward to another formula reads the seeded 0 in the first pass instead of waiting for it | expression `a+b`, formulas `[b = a+1, a = 5]`, no variables: evaluates to 6 | formulas resolve regardless of declaration order, giving `a = 5`, `b = 6` and `a+b = 11` | medium, not executed | FormulaEvaluation.SeedingShadowsForwardReference | FormulaEvaluation.IntendedFormulaValue (proved by FormulaEvaluation.IntendedForwardReference, FormulaEvaluation.IntendedSeedingLeavesFormulaNamesUnset, FormulaEvaluation.IntendedAgreesWithoutFormulaNames) |
