/** The formula evaluation service (widget/src/hooks/useFormulaEvaluation.ts):
    sanitise the expression, seed its identifiers on a copy of the variable
    values, fold the formulas into that scope and evaluate, turning every
    failure and every non-numeric result into 0. */
module FormulaEvaluation {
  import opened Wrappers
  import opened Runtime
  import opened FormulaHelpers

  /** The scope object `{ ...variableValues }`: every variable as a number. */
  function Lift(variableValues: map<string, real>): (s: Scope)
    ensures s.Keys == variableValues.Keys
    ensures forall k :: k in variableValues ==> s[k] == Num(variableValues[k])
  {
    map k | k in variableValues :: Num(variableValues[k])
  }

  /** The scope the sanitised expression is finally evaluated against. */
  function FullScope(variableValues: map<string, real>, formulas: seq<Formula>, eval: Evaluator, sanitized: string): Scope {
    BuildScope(SeedDefaults(Lift(variableValues), Identifiers(sanitized)), formulas, eval)
  }

  /** `typeof result === 'number' ? result : 0`, with a thrown exception also giving 0. */
  function Coerce(result: Option<Value>): (r: real)
    ensures result.Some? && result.value.Num? ==> r == result.value.n
    ensures !(result.Some? && result.value.Num?) ==> r == 0.0
  {
    match result
    case Some(Num(n)) => n
    case _ => 0.0
  }

  /** What `evaluateFormula(expression)` returns. */
  function FormulaValue(variableValues: map<string, real>, formulas: seq<Formula>, eval: Evaluator, expression: string): real {
    var sanitized := SanitizeExpression(expression);
    Coerce(eval(sanitized, FullScope(variableValues, formulas, eval, sanitized)))
  }

  /** The evaluation scope holds the variables, the expression's identifiers
      and the formula names, and nothing else.  A variable that is not a
      formula name keeps its value; an identifier that is neither a variable
      nor a formula name holds 0; and a formula name is settled by the loop
      of `buildScopeWithFormulas` run from the seeded scope (the first of its
      formulas to evaluate successfully, or the zero fill), overriding both
      the variable and the seeded 0. */
  lemma FullScopeSpec(variableValues: map<string, real>, formulas: seq<Formula>, eval: Evaluator, sanitized: string)
    ensures FullScope(variableValues, formulas, eval, sanitized).Keys ==
      variableValues.Keys + (set k | k in Identifiers(sanitized)) + Names(formulas)
    ensures forall k :: k in variableValues && k !in Names(formulas) ==>
      FullScope(variableValues, formulas, eval, sanitized)[k] == Num(variableValues[k])
    ensures forall k :: k in Identifiers(sanitized) && k !in variableValues && k !in Names(formulas) ==>
      FullScope(variableValues, formulas, eval, sanitized)[k] == Num(0.0)
    ensures forall k :: k in Names(formulas) ==>
      SettledBy(formulas, eval, SeedDefaults(Lift(variableValues), Identifiers(sanitized)), {}, 0, k,
        FullScope(variableValues, formulas, eval, sanitized)[k])
  {
    var seeded := SeedDefaults(Lift(variableValues), Identifiers(sanitized));
    SeedDefaultsSpec(Lift(variableValues), Identifiers(sanitized));
    BuildScopeSpec(seeded, formulas, eval);
  }

  /** The expression is sanitised once: an expression and its sanitised form
      evaluate to the same value. */
  lemma SanitizedOnce(variableValues: map<string, real>, formulas: seq<Formula>, eval: Evaluator, expression: string)
    ensures FormulaValue(variableValues, formulas, eval, SanitizeExpression(expression)) ==
      FormulaValue(variableValues, formulas, eval, expression)
  {
    SanitizeIdempotent(expression);
  }

  /** When the evaluator throws or produces a non-number on the final
      expression, the result is 0; otherwise it is the evaluator's number.
      This is `Coerce`'s contract read through `FormulaValue`, stated in
      terms of the whole evaluation. */
  lemma FormulaValueOutcome(variableValues: map<string, real>, formulas: seq<Formula>, eval: Evaluator, expression: string)
    ensures var sanitized := SanitizeExpression(expression);
      var result := eval(sanitized, FullScope(variableValues, formulas, eval, sanitized));
      (result.Some? && result.value.Num? ==> FormulaValue(variableValues, formulas, eval, expression) == result.value.n) &&
      (result.None? || result.value.NonNumber? ==> FormulaValue(variableValues, formulas, eval, expression) == 0.0)
  {
  }

  /** `"a\u00A0+\u00A01"` (non-breaking spaces, as pasted from a rich-text
      editor) with `{a: 2}` and no formulas evaluates to 3 under any
      evaluator that adds 1 to `a` in the plain-spaced `"a + 1"`. */
  lemma NonBreakingSpacesExample(eval: Evaluator)
    requires forall s: Scope :: "a" in s && s["a"].Num? ==> eval("a + 1", s) == Some(Num(s["a"].n + 1.0))
    ensures FormulaValue(map["a" := 2.0], [], eval, "a\U{A0}+\U{A0}1") == 3.0
  {
    var sanitized := SanitizeExpression("a\U{A0}+\U{A0}1");
    assert sanitized == "a + 1";
    FullScopeSpec(map["a" := 2.0], [], eval, sanitized);
    assert "a" !in Names([]);
  }

  // ---------------------------------------------------------------------
  // Seeding formula names with 0
  // ---------------------------------------------------------------------

  // The example expression `a+b` is a parameter fixed by `requires` rather
  // than a literal in the contract, so that the solver unfolds it only where
  // a proof step needs it; that keeps these proofs small.

  /** An evaluator that, on the expressions used below, behaves as
      `expr-eval` does: it adds, and throws on an undefined variable. */
  ghost predicate AddsOnExamples(eval: Evaluator) {
    (forall s: Scope :: "a" in s && s["a"].Num? ==> eval("a+1", s) == Some(Num(s["a"].n + 1.0))) &&
    (forall s: Scope :: "a" !in s ==> eval("a+1", s).None?) &&
    (forall s: Scope :: eval("5", s) == Some(Num(5.0))) &&
    (forall s: Scope :: "a" in s && "b" in s && s["a"].Num? && s["b"].Num? ==>
      eval("a+b", s) == Some(Num(s["a"].n + s["b"].n)))
  }

  lemma IdentifiersOfSum(expression: string)
    requires expression == "a+b"
    ensures Identifiers(expression) == ["a", "b"]
  {
    assert IdentRun("+b") == 0;
    assert IdentRun(expression) == 1;
    assert expression[..1] == "a" && expression[1..] == "+b";
    assert "+b"[1..] == "b";
    assert IdentRun("b") == 1;
    assert "b"[..1] == "b" && "b"[1..] == "";
  }

  /** As written, the expression's identifiers of `a+b` are seeded with 0. */
  lemma SeededSum(expression: string)
    requires expression == "a+b"
    ensures SeedDefaults(Lift(map[]), Identifiers(expression)) == map["a" := Num(0.0), "b" := Num(0.0)]
  {
    IdentifiersOfSum(expression);
    assert Lift(map[]) == map[];
    assert ["a", "b"][1..] == ["b"];
  }

  /** The first formula, `b = a+1`, reads the seeded `a`. */
  lemma ShadowedFirstAttempt(eval: Evaluator, f: Formula, st0: PassState, st1: PassState)
    requires AddsOnExamples(eval)
    requires f == Formula("b", "a+1")
    requires st0 == PassState(map["a" := Num(0.0), "b" := Num(0.0)], {}, false)
    requires st1 == PassState(map["a" := Num(0.0), "b" := Num(1.0)], {"b"}, true)
    ensures Attempt(f, eval, st0) == st1
  {
    SanitizeNoop("a+1");
    assert st0.scope["a"] == Num(0.0);
    assert eval("a+1", st0.scope) == Some(Num(1.0));
    assert st0.scope["b" := Num(1.0)] == st1.scope;
  }

  /** The second formula, `a = 5`, resolves `a` in the same pass. */
  lemma ShadowedSecondAttempt(eval: Evaluator, f: Formula, st1: PassState, st2: PassState)
    requires AddsOnExamples(eval)
    requires f == Formula("a", "5")
    requires st1 == PassState(map["a" := Num(0.0), "b" := Num(1.0)], {"b"}, true)
    requires st2 == PassState(map["a" := Num(5.0), "b" := Num(1.0)], {"a", "b"}, true)
    ensures Attempt(f, eval, st1) == st2
  {
    SanitizeNoop("5");
    assert "a" !in st1.resolved;
    assert st1.scope["a" := Num(5.0)] == st2.scope;
  }

  /** From the seeded scope, `[b = a+1, a = 5]` resolves in one pass with
      `b` computed from the seeded 0. */
  lemma ShadowedPass(eval: Evaluator, formulas: seq<Formula>, seeded: Scope)
    requires AddsOnExamples(eval)
    requires formulas == [Formula("b", "a+1"), Formula("a", "5")]
    requires seeded == map["a" := Num(0.0), "b" := Num(0.0)]
    ensures BuildScope(seeded, formulas, eval) == map["a" := Num(5.0), "b" := Num(1.0)]
  {
    var st0 := PassState(seeded, {}, false);
    var st1 := PassState(map["a" := Num(0.0), "b" := Num(1.0)], {"b"}, true);
    var st2 := PassState(map["a" := Num(5.0), "b" := Num(1.0)], {"a", "b"}, true);
    ShadowedFirstAttempt(eval, formulas[0], st0, st1);
    ShadowedSecondAttempt(eval, formulas[1], st1, st2);
    assert formulas[1..][0] == formulas[1] && formulas[1..][1..] == [];
    assert RunPass(formulas, eval, st0) == RunPass(formulas[1..], eval, st1);
    assert RunPass(formulas[1..], eval, st1) == st2;
    assert |st2.resolved| == 2 by { assert "a" != "b"; }
    assert Continues(formulas, {}, 0);
    IterateUnfold(formulas, eval, seeded, {}, 0);
  }

  /** As written, the expression `a+b` over the formulas `[b = a+1, a = 5]`
      evaluates to 6, not 11: the expression's identifiers `a` and `b` are
      seeded with 0 before the scope is built, so `b` reads the seeded `a`
      in the first pass instead of waiting for the formula `a`.  The
      expression `b` alone gives `b` the value 6 (see
      `FormulaHelpers.ForwardReferenceResolves`). */
  lemma SeedingShadowsForwardReference(eval: Evaluator, formulas: seq<Formula>, expression: string)
    requires AddsOnExamples(eval)
    requires formulas == [Formula("b", "a+1"), Formula("a", "5")]
    requires expression == "a+b"
    ensures FormulaValue(map[], formulas, eval, expression) == 6.0
  {
    SanitizeNoop(expression);
    ShadowedScope(eval, formulas, expression);
    var scope := map["a" := Num(5.0), "b" := Num(1.0)];
    assert scope["a"] == Num(5.0) && scope["b"] == Num(1.0);
    assert eval(expression, scope) == Some(Num(6.0));
  }

  /** As written, the scope built for `a+b` holds `b = 1`. */
  lemma ShadowedScope(eval: Evaluator, formulas: seq<Formula>, expression: string)
    requires AddsOnExamples(eval)
    requires formulas == [Formula("b", "a+1"), Formula("a", "5")]
    requires expression == "a+b"
    ensures FullScope(map[], formulas, eval, expression) == map["a" := Num(5.0), "b" := Num(1.0)]
  {
    SeededSum(expression);
    ShadowedPass(eval, formulas, map["a" := Num(0.0), "b" := Num(0.0)]);
  }

  /** The identifiers to seed when formula names are left to the formulas:
      those that no formula defines, in order. */
  function IntendedSeeds(ids: seq<string>, names: set<string>): (r: seq<string>)
    ensures forall k :: k in r <==> k in ids && k !in names
  {
    if ids == [] then []
    else (if ids[0] in names then [] else [ids[0]]) + IntendedSeeds(ids[1..], names)
  }

  /** The evaluation scope with only non-formula identifiers seeded. */
  function IntendedScope(variableValues: map<string, real>, formulas: seq<Formula>, eval: Evaluator, sanitized: string): Scope {
    BuildScope(SeedDefaults(Lift(variableValues), IntendedSeeds(Identifiers(sanitized), Names(formulas))), formulas, eval)
  }

  /** `evaluateFormula(expression)` with that seeding. */
  function IntendedFormulaValue(variableValues: map<string, real>, formulas: seq<Formula>, eval: Evaluator, expression: string): real {
    var sanitized := SanitizeExpression(expression);
    Coerce(eval(sanitized, IntendedScope(variableValues, formulas, eval, sanitized)))
  }

  /** With the intended seeding, a formula name that is not a variable is
      absent when the formulas are first tried, so a formula reading it
      fails and is retried on a later pass instead of reading 0; every other
      identifier is seeded as before. */
  lemma IntendedSeedingLeavesFormulaNamesUnset(variableValues: map<string, real>, formulas: seq<Formula>, sanitized: string)
    ensures var seeded := SeedDefaults(Lift(variableValues), IntendedSeeds(Identifiers(sanitized), Names(formulas)));
      (forall k :: k in Names(formulas) && k !in variableValues ==> k !in seeded) &&
      (forall k :: k in Identifiers(sanitized) && k !in Names(formulas) && k !in variableValues ==>
        k in seeded && seeded[k] == Num(0.0)) &&
      (forall k :: k in variableValues ==> k in seeded && seeded[k] == Num(variableValues[k]))
  {
    SeedDefaultsSpec(Lift(variableValues), IntendedSeeds(Identifiers(sanitized), Names(formulas)));
  }

  lemma {:induction false} IntendedSeedsKeepsAll(ids: seq<string>, names: set<string>)
    requires forall k :: k in ids ==> k !in names
    ensures IntendedSeeds(ids, names) == ids
  {
    if ids != [] {
      IntendedSeedsKeepsAll(ids[1..], names);
    }
  }

  /** The correction changes nothing for an expression that names no formula. */
  lemma IntendedAgreesWithoutFormulaNames(variableValues: map<string, real>, formulas: seq<Formula>, eval: Evaluator, expression: string)
    requires forall k :: k in Identifiers(SanitizeExpression(expression)) ==> k !in Names(formulas)
    ensures IntendedFormulaValue(variableValues, formulas, eval, expression) == FormulaValue(variableValues, formulas, eval, expression)
  {
    IntendedSeedsKeepsAll(Identifiers(SanitizeExpression(expression)), Names(formulas));
  }

  /** With nothing seeded, `[b = a+1, a = 5]` resolves `a` first and then `b`. */
  lemma IntendedScopeOfSum(eval: Evaluator, formulas: seq<Formula>, expression: string)
    requires AddsOnExamples(eval)
    requires formulas == [Formula("b", "a+1"), Formula("a", "5")]
    requires expression == "a+b"
    ensures IntendedScope(map[], formulas, eval, expression) == map["a" := Num(5.0), "b" := Num(6.0)]
  {
    IntendedSeedsOfSum(formulas, expression);
    assert forall s: Scope :: "a" in s && s["a"] == Num(5.0) ==> eval("a+1", s) == Some(Num(6.0)) by {
      forall s: Scope | "a" in s && s["a"] == Num(5.0)
        ensures eval("a+1", s) == Some(Num(6.0))
      {
        assert s["a"].Num? && s["a"].n + 1.0 == 6.0;
      }
    }
    ForwardReferenceResolves(eval);
  }

  /** With the intended seeding, `a+b` over `[b = a+1, a = 5]` is 11. */
  lemma IntendedForwardReference(eval: Evaluator, formulas: seq<Formula>, expression: string)
    requires AddsOnExamples(eval)
    requires formulas == [Formula("b", "a+1"), Formula("a", "5")]
    requires expression == "a+b"
    ensures IntendedFormulaValue(map[], formulas, eval, expression) == 11.0
  {
    SanitizeNoop(expression);
    IntendedScopeOfSum(eval, formulas, expression);
    var scope := map["a" := Num(5.0), "b" := Num(6.0)];
    assert scope["a"] == Num(5.0) && scope["b"] == Num(6.0);
    assert eval(expression, scope) == Some(Num(11.0));
  }

  /** With the intended seeding, nothing of `a+b` is seeded when both `a`
      and `b` are formulas. */
  lemma IntendedSeedsOfSum(formulas: seq<Formula>, expression: string)
    requires formulas == [Formula("b", "a+1"), Formula("a", "5")]
    requires expression == "a+b"
    ensures SeedDefaults(Lift(map[]), IntendedSeeds(Identifiers(expression), Names(formulas))) == map[]
  {
    IdentifiersOfSum(expression);
    assert Lift(map[]) == map[];
    var names := Names(formulas);
    assert formulas[0].name == "b" && formulas[1].name == "a";
    assert "a" in names && "b" in names;
    var ids: seq<string> := ["a", "b"];
    assert ids[0] == "a" && ids[1..] == ["b"];
    assert ["b"][0] == "b" && ["b"][1..] == [];
    assert IntendedSeeds(["b"], names) == [] + IntendedSeeds([], names);
    assert IntendedSeeds(ids, names) == [] + IntendedSeeds(["b"], names);
  }

  /** `evaluateFormula(expression)`: works on a fresh copy of the variables,
      so the caller's values are never touched, and never throws. */
  method EvaluateFormula(variableValues: map<string, real>, formulas: seq<Formula>, eval: Evaluator, expression: string)
    returns (r: real)
    ensures r == FormulaValue(variableValues, formulas, eval, expression)
  {
    var sanitizedExpression := SanitizeExpression(expression);
    var scope := new VariableScope(Lift(variableValues));
    SetDefaultVariableValues(sanitizedExpression, scope);
    var fullScope := BuildScopeWithFormulas(scope, formulas, eval);
    var result := eval(sanitizedExpression, fullScope.entries);
    if result.Some? && result.value.Num? {
      r := result.value.n;
    } else {
      r := 0.0;
    }
  }
}
