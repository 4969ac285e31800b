/** Scope construction for formula evaluation (widget/src/utils/formulaHelpers.ts):
    expression sanitising, identifier seeding and the fixed-point loop that
    folds every formula's value into the scope. */
module FormulaHelpers {
  import opened Wrappers
  import opened Runtime

  /** A named formula of the calculator schema. */
  datatype Formula = Formula(name: string, expression: string)

  /** A scope object (`VariableValues`) that the helpers update in place. */
  class VariableScope {
    var entries: Scope

    constructor (entries: Scope)
      ensures this.entries == entries
    {
      this.entries := entries;
    }
  }

  // ---------------------------------------------------------------------
  // sanitizeExpression
  // ---------------------------------------------------------------------

  /** The code points the sanitiser replaces: U+00A0, U+2000..U+200B,
      U+202F, U+205F and U+3000. */
  predicate IsUnicodeSpace(c: char) {
    c == '\U{A0}' || ('\U{2000}' <= c <= '\U{200B}') || c == '\U{202F}' || c == '\U{205F}' || c == '\U{3000}'
  }

  /** Every Unicode space variant becomes an ASCII space; everything else is kept. */
  function SanitizeExpression(expression: string): (r: string)
    ensures |r| == |expression|
    ensures forall i :: 0 <= i < |r| ==> r[i] == (if IsUnicodeSpace(expression[i]) then ' ' else expression[i])
  {
    if expression == [] then []
    else [if IsUnicodeSpace(expression[0]) then ' ' else expression[0]] + SanitizeExpression(expression[1..])
  }

  /** Sanitising is idempotent and leaves no Unicode space variant behind. */
  lemma SanitizeIdempotent(expression: string)
    ensures SanitizeExpression(SanitizeExpression(expression)) == SanitizeExpression(expression)
    ensures forall i :: 0 <= i < |SanitizeExpression(expression)| ==> !IsUnicodeSpace(SanitizeExpression(expression)[i])
  {
    var once := SanitizeExpression(expression);
    var twice := SanitizeExpression(once);
    assert forall i :: 0 <= i < |twice| ==> twice[i] == once[i];
  }

  /** An expression without Unicode space variants is its own sanitised form. */
  lemma SanitizeNoop(expression: string)
    requires forall i :: 0 <= i < |expression| ==> !IsUnicodeSpace(expression[i])
    ensures SanitizeExpression(expression) == expression
  {
    var r := SanitizeExpression(expression);
    assert forall i :: 0 <= i < |r| ==> r[i] == expression[i];
  }

  // ---------------------------------------------------------------------
  // The identifier pattern /[a-zA-Z_][a-zA-Z0-9_]*/g
  // ---------------------------------------------------------------------

  predicate IsIdentStart(c: char) {
    ('a' <= c <= 'z') || ('A' <= c <= 'Z') || c == '_'
  }

  predicate IsIdentChar(c: char) {
    IsIdentStart(c) || ('0' <= c <= '9')
  }

  predicate IsIdentifier(s: string) {
    |s| > 0 && IsIdentStart(s[0]) && forall i :: 0 <= i < |s| ==> IsIdentChar(s[i])
  }

  /** Length of the longest prefix of `s` made of identifier characters. */
  function IdentRun(s: string): (n: nat)
    ensures n <= |s|
    ensures forall i :: 0 <= i < n ==> IsIdentChar(s[i])
    ensures n < |s| ==> !IsIdentChar(s[n])
  {
    if s == [] || !IsIdentChar(s[0]) then 0 else 1 + IdentRun(s[1..])
  }

  /** `IdentRun` stops exactly at the end of an identifier followed by a non-identifier character. */
  lemma {:induction false} IdentRunOver(name: string, rest: string)
    requires forall i :: 0 <= i < |name| ==> IsIdentChar(name[i])
    requires rest == [] || !IsIdentChar(rest[0])
    ensures IdentRun(name + rest) == |name|
    decreases |name|
  {
    if name == [] {
      assert name + rest == rest;
    } else {
      assert (name + rest)[0] == name[0];
      assert (name + rest)[1..] == name[1..] + rest;
      IdentRunOver(name[1..], rest);
    }
  }

  /** The leftmost-greedy matches of the identifier pattern, in order
      (`expression.match(variablePattern) || []`). */
  function Identifiers(s: string): (ids: seq<string>)
    ensures forall k :: 0 <= k < |ids| ==> IsIdentifier(ids[k])
    decreases |s|
  {
    if s == [] then []
    else if IsIdentStart(s[0]) then
      var n := IdentRun(s);
      [s[..n]] + Identifiers(s[n..])
    else Identifiers(s[1..])
  }

  /** The identifier run of a text is unchanged by appending text that
      starts with a non-identifier character. */
  lemma {:induction false} IdentRunAppend(p: string, q: string)
    requires q == [] || !IsIdentChar(q[0])
    ensures IdentRun(p + q) == IdentRun(p)
    decreases |p|
  {
    if p == [] {
      assert p + q == q;
    } else {
      assert (p + q)[0] == p[0];
      assert (p + q)[1..] == p[1..] + q;
      IdentRunAppend(p[1..], q);
    }
  }

  /** A match never spans a character outside `[a-zA-Z0-9_]`: splitting the
      text in front of such a character splits the matches. */
  lemma {:induction false} IdentifiersSplit(p: string, q: string)
    requires q == [] || !IsIdentChar(q[0])
    ensures Identifiers(p + q) == Identifiers(p) + Identifiers(q)
    decreases |p|
  {
    var t := p + q;
    if p == [] {
      assert t == q;
    } else if IsIdentStart(p[0]) {
      var n := IdentRun(p);
      IdentRunAppend(p, q);
      assert t[0] == p[0];
      assert t[..n] == p[..n];
      assert t[n..] == p[n..] + q;
      IdentifiersSplit(p[n..], q);
      calc {
        Identifiers(t);
        [p[..n]] + Identifiers(p[n..] + q);
        [p[..n]] + (Identifiers(p[n..]) + Identifiers(q));
        ([p[..n]] + Identifiers(p[n..])) + Identifiers(q);
      }
    } else {
      assert t[0] == p[0];
      assert t[1..] == p[1..] + q;
      IdentifiersSplit(p[1..], q);
    }
  }

  /** A word of `[a-zA-Z0-9_]` characters: leading digits are skipped and
      the rest is one match, or there is none when the word is all digits. */
  lemma {:induction false} IdentifiersOfWord(digits: string, name: string)
    requires forall i :: 0 <= i < |digits| ==> '0' <= digits[i] <= '9'
    requires name == [] || IsIdentifier(name)
    ensures Identifiers(digits + name) == if name == [] then [] else [name]
    decreases |digits|
  {
    if digits == [] {
      assert digits + name == name;
      if name != [] {
        IdentRunOver(name, []);
        assert name + [] == name;
        assert name[|name|..] == [];
      }
    } else {
      assert (digits + name)[1..] == digits[1..] + name;
      IdentifiersOfWord(digits[1..], name);
    }
  }

  /** A character outside `[a-zA-Z0-9_]` is no match. */
  lemma IdentifiersOfSeparator(c: char)
    requires !IsIdentChar(c)
    ensures Identifiers([c]) == []
  {
    assert [c][1..] == [];
  }

  // ---------------------------------------------------------------------
  // setDefaultVariableValues
  // ---------------------------------------------------------------------

  /** The scope after seeding each name of `names`, in order, with 0 when absent. */
  function SeedDefaults(scope: Scope, names: seq<string>): Scope
    decreases |names|
  {
    if names == [] then scope
    else SeedDefaults(if names[0] in scope then scope else scope[names[0] := Num(0.0)], names[1..])
  }

  /** Seeding adds exactly the missing names, each mapped to 0, and changes no existing entry. */
  lemma {:induction false} SeedDefaultsSpec(scope: Scope, names: seq<string>)
    ensures SeedDefaults(scope, names).Keys == scope.Keys + (set k | k in names)
    ensures forall k :: k in scope ==> SeedDefaults(scope, names)[k] == scope[k]
    ensures forall k :: k in SeedDefaults(scope, names) && k !in scope ==> SeedDefaults(scope, names)[k] == Num(0.0)
    decreases |names|
  {
    if names != [] {
      var next := if names[0] in scope then scope else scope[names[0] := Num(0.0)];
      SeedDefaultsSpec(next, names[1..]);
      assert (set k | k in names) == {names[0]} + (set k | k in names[1..]);
    }
  }

  /** `setDefaultVariableValues(expression, scope)`: seeds, in place, every
      identifier of the expression that the scope lacks with 0. */
  method SetDefaultVariableValues(expression: string, scope: VariableScope)
    modifies scope
    ensures scope.entries == SeedDefaults(old(scope.entries), Identifiers(expression))
    ensures scope.entries.Keys == old(scope.entries).Keys + (set k | k in Identifiers(expression))
    ensures forall k :: k in old(scope.entries) ==> scope.entries[k] == old(scope.entries)[k]
    ensures forall k :: k in scope.entries && k !in old(scope.entries) ==> scope.entries[k] == Num(0.0)
  {
    var foundVariables := Identifiers(expression);
    var i := 0;
    while i < |foundVariables|
      invariant 0 <= i <= |foundVariables|
      invariant SeedDefaults(scope.entries, foundVariables[i..]) == SeedDefaults(old(scope.entries), foundVariables)
    {
      var varName := foundVariables[i];
      assert foundVariables[i..][1..] == foundVariables[i + 1..];
      if varName !in scope.entries {
        scope.entries := scope.entries[varName := Num(0.0)];
      }
      i := i + 1;
    }
    assert foundVariables[i..] == [];
    SeedDefaultsSpec(old(scope.entries), foundVariables);
  }

  // ---------------------------------------------------------------------
  // buildScopeWithFormulas: specification
  // ---------------------------------------------------------------------

  /** The set of names the formulas define. */
  function Names(formulas: seq<Formula>): set<string> {
    set i | 0 <= i < |formulas| :: formulas[i].name
  }

  /** The loop state of one pass: the scope, the names resolved so far and
      the `progressMade` flag. */
  datatype PassState = PassState(scope: Scope, resolved: set<string>, progress: bool)

  /** One step of the pass: skip a resolved name, otherwise try to evaluate
      the sanitised expression against the current scope. */
  function Attempt(f: Formula, eval: Evaluator, st: PassState): PassState {
    if f.name in st.resolved then st
    else match eval(SanitizeExpression(f.expression), st.scope)
      case None => st
      case Some(v) => PassState(st.scope[f.name := v], st.resolved + {f.name}, true)
  }

  /** One pass over the formulas in declaration order; later formulas see
      the values earlier ones wrote in the same pass. */
  function RunPass(formulas: seq<Formula>, eval: Evaluator, st: PassState): PassState
    decreases |formulas|
  {
    if formulas == [] then st else RunPass(formulas[1..], eval, Attempt(formulas[0], eval, st))
  }

  /** The no-progress policy: every formula still unresolved is set to 0. */
  function ForceZero(formulas: seq<Formula>, st: PassState): PassState
    decreases |formulas|
  {
    if formulas == [] then st
    else
      var f := formulas[0];
      var next := if f.name in st.resolved then st
        else st.(scope := st.scope[f.name := Num(0.0)], resolved := st.resolved + {f.name});
      ForceZero(formulas[1..], next)
  }

  /** The final scope and resolved set, and the number of passes run. */
  datatype Outcome = Outcome(scope: Scope, resolved: set<string>, passes: nat)

  /** The outer `while` loop, from a state with `iterations` passes done. */
  function Iterate(formulas: seq<Formula>, eval: Evaluator, scope: Scope, resolved: set<string>, iterations: nat): Outcome
    decreases 2 * |formulas| - iterations
  {
    if |resolved| < |formulas| && iterations < 2 * |formulas| then
      var p := RunPass(formulas, eval, PassState(scope, resolved, false));
      if !p.progress then
        var z := ForceZero(formulas, p);
        Outcome(z.scope, z.resolved, iterations + 1)
      else
        Iterate(formulas, eval, p.scope, p.resolved, iterations + 1)
    else
      Outcome(scope, resolved, iterations)
  }

  function BuildScopeOutcome(variableValues: Scope, formulas: seq<Formula>, eval: Evaluator): Outcome {
    Iterate(formulas, eval, variableValues, {}, 0)
  }

  /** The scope `buildScopeWithFormulas` returns. */
  function BuildScope(variableValues: Scope, formulas: seq<Formula>, eval: Evaluator): Scope {
    BuildScopeOutcome(variableValues, formulas, eval).scope
  }

  /** The pass state just before `formulas[i]` is tried, in a pass that
      starts from `st`. */
  function Before(formulas: seq<Formula>, eval: Evaluator, st: PassState, i: nat): PassState
    requires i <= |formulas|
  {
    RunPass(formulas[..i], eval, st)
  }

  /** In the pass from `st`, `formulas[i]` is tried (its name is not resolved
      yet) and its expression evaluates without throwing. */
  predicate SucceedsAt(formulas: seq<Formula>, eval: Evaluator, st: PassState, i: nat)
    requires i < |formulas|
  {
    var b := Before(formulas, eval, st, i);
    formulas[i].name !in b.resolved && eval(SanitizeExpression(formulas[i].expression), b.scope).Some?
  }

  /** In the pass from `st`, `name` is resolved to `v` by `formulas[i]`: the
      first formula of that name whose evaluation succeeds, evaluated against
      the scope as the pass left it just before that formula's turn. */
  ghost predicate FirstSuccess(formulas: seq<Formula>, eval: Evaluator, st: PassState, name: string, i: int, v: Value) {
    && 0 <= i < |formulas| && formulas[i].name == name && name !in st.resolved
    && (forall j :: 0 <= j < i && formulas[j].name == name ==> !SucceedsAt(formulas, eval, st, j))
    && eval(SanitizeExpression(formulas[i].expression), Before(formulas, eval, st, i).scope) == Some(v)
  }

  /** `st` is the state at the start of one of the passes that the outer
      loop runs from `(scope, resolved, iterations)`. */
  ghost predicate PassStart(formulas: seq<Formula>, eval: Evaluator, scope: Scope, resolved: set<string>, iterations: nat, st: PassState)
    decreases 2 * |formulas| - iterations
  {
    Continues(formulas, resolved, iterations) &&
    (st == PassState(scope, resolved, false) ||
     var p := RunPass(formulas, eval, PassState(scope, resolved, false));
     p.progress && PassStart(formulas, eval, p.scope, p.resolved, iterations + 1, st))
  }

  /** How the outer loop run from `(scope, resolved, iterations)` settles
      `name` on `v`: in one of its passes the first formula of that name to
      evaluate successfully produced `v`, or a pass made no progress with
      `name` still unresolved and the zero fill set it to 0. */
  ghost predicate SettledBy(formulas: seq<Formula>, eval: Evaluator, scope: Scope, resolved: set<string>, iterations: nat, name: string, v: Value) {
    exists st :: PassStart(formulas, eval, scope, resolved, iterations, st) &&
      ((exists i :: FirstSuccess(formulas, eval, st, name, i, v)) ||
       (v == Num(0.0) && name !in st.resolved && !RunPass(formulas, eval, st).progress))
  }

  // ---------------------------------------------------------------------
  // buildScopeWithFormulas: properties
  // ---------------------------------------------------------------------

  lemma SubsetCard(a: set<string>, b: set<string>)
    requires a <= b
    ensures |a| <= |b|
    ensures a < b ==> |a| < |b|
  {
    assert b == a + (b - a);
    if a < b {
      var x :| x in b - a;
    }
  }

  lemma {:induction false} NamesCard(formulas: seq<Formula>)
    ensures |Names(formulas)| <= |formulas|
    decreases |formulas|
  {
    if formulas != [] {
      NamesCard(formulas[1..]);
      NamesTail(formulas);
    }
  }

  lemma NamesTail(formulas: seq<Formula>)
    requires formulas != []
    ensures Names(formulas) == {formulas[0].name} + Names(formulas[1..])
  {
    forall k | k in Names(formulas) ensures k in {formulas[0].name} + Names(formulas[1..]) {
      var i :| 0 <= i < |formulas| && formulas[i].name == k;
      if i > 0 { assert formulas[1..][i - 1].name == k; }
    }
  }

  /** What a pass did: it resolved some formula names, added exactly those
      keys, wrote no other entry, and reports progress exactly when it
      resolved something. */
  ghost predicate PassFacts(names: set<string>, st: PassState, p: PassState) {
    && st.resolved <= p.resolved <= st.resolved + names
    && p.scope.Keys == st.scope.Keys + (p.resolved - st.resolved)
    && (forall k :: k in st.scope && k !in p.resolved - st.resolved ==> p.scope[k] == st.scope[k])
    && p.progress == (st.progress || p.resolved != st.resolved)
  }

  lemma {:induction false} RunPassFacts(formulas: seq<Formula>, eval: Evaluator, st: PassState)
    ensures PassFacts(Names(formulas), st, RunPass(formulas, eval, st))
    decreases |formulas|
  {
    if formulas != [] {
      var next := Attempt(formulas[0], eval, st);
      RunPassFacts(formulas[1..], eval, next);
      NamesTail(formulas);
    }
  }

  /** Trying `formulas[i + 1]` happens in the state that trying
      `formulas[1..][i]` reaches after the first step. */
  lemma BeforeShift(formulas: seq<Formula>, eval: Evaluator, st: PassState, i: nat)
    requires i < |formulas|
    ensures Before(formulas, eval, st, i + 1) == Before(formulas[1..], eval, Attempt(formulas[0], eval, st), i)
  {
    assert formulas[..i + 1][1..] == formulas[1..][..i];
  }

  /** A name a pass resolves holds the value of the first formula of that
      name to evaluate successfully in that pass; later formulas of the same
      name are skipped. */
  lemma {:induction false} RunPassFirstSuccess(formulas: seq<Formula>, eval: Evaluator, st: PassState, name: string)
    requires name !in st.resolved
    ensures var p := RunPass(formulas, eval, st);
      name in p.resolved ==> name in p.scope && exists i :: FirstSuccess(formulas, eval, st, name, i, p.scope[name])
    decreases |formulas|
  {
    if formulas != [] {
      var f := formulas[0];
      var next := Attempt(f, eval, st);
      var p := RunPass(formulas, eval, st);
      RunPassFacts(formulas[1..], eval, next);
      assert formulas[..0] == [];
      if f.name == name && eval(SanitizeExpression(f.expression), st.scope).Some? {
        assert FirstSuccess(formulas, eval, st, name, 0, p.scope[name]);
      } else {
        RunPassFirstSuccess(formulas[1..], eval, next, name);
        if name in p.resolved {
          var i :| FirstSuccess(formulas[1..], eval, next, name, i, p.scope[name]);
          BeforeShift(formulas, eval, st, i);
          forall j | 0 <= j < i + 1 && formulas[j].name == name
            ensures !SucceedsAt(formulas, eval, st, j)
          {
            if j > 0 {
              BeforeShift(formulas, eval, st, j - 1);
              assert formulas[j] == formulas[1..][j - 1];
              assert !SucceedsAt(formulas[1..], eval, next, j - 1);
            }
          }
          assert FirstSuccess(formulas, eval, st, name, i + 1, p.scope[name]);
        }
      }
    }
  }

  /** What the zero fill did: it resolved every name, setting exactly the
      unresolved ones to 0. */
  ghost predicate ZeroFacts(names: set<string>, st: PassState, z: PassState) {
    && z.resolved == st.resolved + names
    && z.scope.Keys == st.scope.Keys + (names - st.resolved)
    && (forall k :: k in names - st.resolved ==> z.scope[k] == Num(0.0))
    && (forall k :: k in st.scope && k !in names - st.resolved ==> z.scope[k] == st.scope[k])
  }

  lemma {:induction false} ForceZeroFacts(formulas: seq<Formula>, st: PassState)
    ensures ZeroFacts(Names(formulas), st, ForceZero(formulas, st))
    decreases |formulas|
  {
    if formulas != [] {
      var f := formulas[0];
      var next := if f.name in st.resolved then st
        else st.(scope := st.scope[f.name := Num(0.0)], resolved := st.resolved + {f.name});
      ForceZeroFacts(formulas[1..], next);
      NamesTail(formulas);
    }
  }

  /** The guard of the outer `while` loop. */
  predicate Continues(formulas: seq<Formula>, resolved: set<string>, iterations: nat) {
    |resolved| < |formulas| && iterations < 2 * |formulas|
  }

  lemma IterateUnfold(formulas: seq<Formula>, eval: Evaluator, scope: Scope, resolved: set<string>, iterations: nat)
    requires Continues(formulas, resolved, iterations)
    ensures var p := RunPass(formulas, eval, PassState(scope, resolved, false));
      Iterate(formulas, eval, scope, resolved, iterations) ==
        if p.progress then Iterate(formulas, eval, p.scope, p.resolved, iterations + 1)
        else Outcome(ForceZero(formulas, p).scope, ForceZero(formulas, p).resolved, iterations + 1)
  {
  }

  /** The invariant of the outer loop: resolved names are formula names
      present in the scope, and every pass so far resolved something. */
  ghost predicate LoopInv(names: set<string>, scope: Scope, resolved: set<string>, iterations: nat) {
    resolved <= names && resolved <= scope.Keys && iterations <= |resolved|
  }

  /** A progressing pass keeps the invariant and leaves fewer names unresolved. */
  lemma ProgressKeepsInv(names: set<string>, scope: Scope, resolved: set<string>, iterations: nat, p: PassState)
    requires LoopInv(names, scope, resolved, iterations)
    requires PassFacts(names, PassState(scope, resolved, false), p) && p.progress
    ensures LoopInv(names, p.scope, p.resolved, iterations + 1)
    ensures |names - p.resolved| < |names - resolved|
  {
    SubsetCard(resolved, p.resolved);
    assert names - resolved == (names - p.resolved) + (p.resolved - resolved);
    SubsetCard(names - p.resolved, names - resolved);
  }

  /** When the loop guard fails under the invariant, every name is resolved:
      the 2 * |formulas| bound is never what stops the loop. */
  lemma GuardExit(formulas: seq<Formula>, scope: Scope, resolved: set<string>, iterations: nat)
    requires LoopInv(Names(formulas), scope, resolved, iterations)
    requires !Continues(formulas, resolved, iterations)
    ensures resolved == Names(formulas)
  {
    NamesCard(formulas);
    SubsetCard(resolved, Names(formulas));
  }

  /** The outer loop ends with every formula name resolved. */
  lemma {:induction false} IterateResolves(formulas: seq<Formula>, eval: Evaluator, scope: Scope, resolved: set<string>, iterations: nat)
    requires LoopInv(Names(formulas), scope, resolved, iterations)
    ensures Iterate(formulas, eval, scope, resolved, iterations).resolved == Names(formulas)
    decreases 2 * |formulas| - iterations
  {
    if Continues(formulas, resolved, iterations) {
      var st := PassState(scope, resolved, false);
      var p := RunPass(formulas, eval, st);
      RunPassFacts(formulas, eval, st);
      IterateUnfold(formulas, eval, scope, resolved, iterations);
      if !p.progress {
        ForceZeroFacts(formulas, p);
      } else {
        ProgressKeepsInv(Names(formulas), scope, resolved, iterations, p);
        IterateResolves(formulas, eval, p.scope, p.resolved, iterations + 1);
      }
    } else {
      GuardExit(formulas, scope, resolved, iterations);
    }
  }

  lemma KeysAfterZero(names: set<string>, keys: set<string>, resolved: set<string>, passKeys: set<string>, zeroKeys: set<string>)
    requires resolved <= keys
    requires passKeys == keys + (resolved - resolved)
    requires zeroKeys == passKeys + (names - resolved)
    ensures zeroKeys == keys + names
  {
    assert passKeys == keys;
  }

  lemma KeysAfterProgress(names: set<string>, keys: set<string>, resolved: set<string>, passed: set<string>, passKeys: set<string>, finalKeys: set<string>)
    requires passed <= resolved + names
    requires passKeys == keys + (passed - resolved)
    requires finalKeys == passKeys + names
    ensures finalKeys == keys + names
  {
    assert passed - resolved <= names;
  }

  /** The outer loop ends with every formula name present in the scope, and no other new key. */
  lemma {:induction false} IterateKeys(formulas: seq<Formula>, eval: Evaluator, scope: Scope, resolved: set<string>, iterations: nat)
    requires LoopInv(Names(formulas), scope, resolved, iterations)
    ensures Iterate(formulas, eval, scope, resolved, iterations).scope.Keys == scope.Keys + Names(formulas)
    decreases 2 * |formulas| - iterations
  {
    if Continues(formulas, resolved, iterations) {
      var st := PassState(scope, resolved, false);
      var p := RunPass(formulas, eval, st);
      RunPassFacts(formulas, eval, st);
      IterateUnfold(formulas, eval, scope, resolved, iterations);
      if !p.progress {
        var z := ForceZero(formulas, p);
        ForceZeroFacts(formulas, p);
        KeysAfterZero(Names(formulas), scope.Keys, resolved, p.scope.Keys, z.scope.Keys);
      } else {
        ProgressKeepsInv(Names(formulas), scope, resolved, iterations, p);
        IterateKeys(formulas, eval, p.scope, p.resolved, iterations + 1);
        var o := Iterate(formulas, eval, p.scope, p.resolved, iterations + 1);
        IterateResolves(formulas, eval, p.scope, p.resolved, iterations + 1);
        KeysAfterProgress(Names(formulas), scope.Keys, resolved, p.resolved, p.scope.Keys, o.scope.Keys);
      }
    } else {
      GuardExit(formulas, scope, resolved, iterations);
    }
  }

  /** The outer loop keeps every entry that is resolved already or is not a formula name. */
  lemma {:induction false} IterateKeeps(formulas: seq<Formula>, eval: Evaluator, scope: Scope, resolved: set<string>, iterations: nat)
    requires LoopInv(Names(formulas), scope, resolved, iterations)
    ensures var o := Iterate(formulas, eval, scope, resolved, iterations);
      forall k :: k in scope && (k in resolved || k !in Names(formulas)) ==> k in o.scope && o.scope[k] == scope[k]
    decreases 2 * |formulas| - iterations
  {
    if Continues(formulas, resolved, iterations) {
      var st := PassState(scope, resolved, false);
      var p := RunPass(formulas, eval, st);
      RunPassFacts(formulas, eval, st);
      IterateUnfold(formulas, eval, scope, resolved, iterations);
      if !p.progress {
        ForceZeroFacts(formulas, p);
      } else {
        ProgressKeepsInv(Names(formulas), scope, resolved, iterations, p);
        IterateKeeps(formulas, eval, p.scope, p.resolved, iterations + 1);
      }
    }
  }

  /** The outer loop runs at most one pass more than there are unresolved names. */
  lemma {:induction false} IteratePasses(formulas: seq<Formula>, eval: Evaluator, scope: Scope, resolved: set<string>, iterations: nat)
    requires LoopInv(Names(formulas), scope, resolved, iterations)
    ensures Iterate(formulas, eval, scope, resolved, iterations).passes <= iterations + |Names(formulas) - resolved| + 1
    decreases 2 * |formulas| - iterations
  {
    if Continues(formulas, resolved, iterations) {
      var st := PassState(scope, resolved, false);
      var p := RunPass(formulas, eval, st);
      RunPassFacts(formulas, eval, st);
      IterateUnfold(formulas, eval, scope, resolved, iterations);
      if p.progress {
        ProgressKeepsInv(Names(formulas), scope, resolved, iterations, p);
        IteratePasses(formulas, eval, p.scope, p.resolved, iterations + 1);
      }
    }
  }

  /** The outer loop never exceeds its 2 * |formulas| bound. */
  lemma {:induction false} IterateBound(formulas: seq<Formula>, eval: Evaluator, scope: Scope, resolved: set<string>, iterations: nat)
    requires iterations <= 2 * |formulas|
    ensures Iterate(formulas, eval, scope, resolved, iterations).passes <= 2 * |formulas|
    decreases 2 * |formulas| - iterations
  {
    if Continues(formulas, resolved, iterations) {
      var p := RunPass(formulas, eval, PassState(scope, resolved, false));
      IterateUnfold(formulas, eval, scope, resolved, iterations);
      if p.progress {
        IterateBound(formulas, eval, p.scope, p.resolved, iterations + 1);
      }
    }
  }

  /** A name that the first pass resolves is settled by that pass. */
  lemma SettledInFirstPass(formulas: seq<Formula>, eval: Evaluator, scope: Scope, resolved: set<string>, iterations: nat, name: string, i: int, v: Value)
    requires Continues(formulas, resolved, iterations)
    requires FirstSuccess(formulas, eval, PassState(scope, resolved, false), name, i, v)
    ensures SettledBy(formulas, eval, scope, resolved, iterations, name, v)
  {
    assert PassStart(formulas, eval, scope, resolved, iterations, PassState(scope, resolved, false));
  }

  /** A name still unresolved after a first pass without progress is settled on 0. */
  lemma SettledByZeroFill(formulas: seq<Formula>, eval: Evaluator, scope: Scope, resolved: set<string>, iterations: nat, name: string)
    requires Continues(formulas, resolved, iterations)
    requires name !in resolved && !RunPass(formulas, eval, PassState(scope, resolved, false)).progress
    ensures SettledBy(formulas, eval, scope, resolved, iterations, name, Num(0.0))
  {
    assert PassStart(formulas, eval, scope, resolved, iterations, PassState(scope, resolved, false));
  }

  /** What a later pass settles, the loop settles. */
  lemma SettledLater(formulas: seq<Formula>, eval: Evaluator, scope: Scope, resolved: set<string>, iterations: nat, name: string, v: Value)
    requires Continues(formulas, resolved, iterations)
    requires var p := RunPass(formulas, eval, PassState(scope, resolved, false));
      p.progress && SettledBy(formulas, eval, p.scope, p.resolved, iterations + 1, name, v)
    ensures SettledBy(formulas, eval, scope, resolved, iterations, name, v)
  {
    var p := RunPass(formulas, eval, PassState(scope, resolved, false));
    var later :| PassStart(formulas, eval, p.scope, p.resolved, iterations + 1, later) &&
      ((exists i :: FirstSuccess(formulas, eval, later, name, i, v)) ||
       (v == Num(0.0) && name !in later.resolved && !RunPass(formulas, eval, later).progress));
    assert PassStart(formulas, eval, scope, resolved, iterations, later);
  }

  /** Every formula name the outer loop has not resolved yet is settled by
      one of its passes: the first successful formula of that name, or the
      zero fill. */
  lemma {:induction false} IterateSettles(formulas: seq<Formula>, eval: Evaluator, scope: Scope, resolved: set<string>, iterations: nat, name: string)
    requires LoopInv(Names(formulas), scope, resolved, iterations)
    requires name in Names(formulas) && name !in resolved
    ensures var o := Iterate(formulas, eval, scope, resolved, iterations);
      name in o.scope && SettledBy(formulas, eval, scope, resolved, iterations, name, o.scope[name])
    decreases 2 * |formulas| - iterations
  {
    if Continues(formulas, resolved, iterations) {
      var st := PassState(scope, resolved, false);
      var p := RunPass(formulas, eval, st);
      RunPassFacts(formulas, eval, st);
      IterateUnfold(formulas, eval, scope, resolved, iterations);
      if !p.progress {
        ForceZeroFacts(formulas, p);
        SettledByZeroFill(formulas, eval, scope, resolved, iterations, name);
      } else if name in p.resolved {
        ProgressKeepsInv(Names(formulas), scope, resolved, iterations, p);
        RunPassFirstSuccess(formulas, eval, st, name);
        IterateKeeps(formulas, eval, p.scope, p.resolved, iterations + 1);
        var i :| FirstSuccess(formulas, eval, st, name, i, p.scope[name]);
        SettledInFirstPass(formulas, eval, scope, resolved, iterations, name, i, p.scope[name]);
      } else {
        ProgressKeepsInv(Names(formulas), scope, resolved, iterations, p);
        IterateSettles(formulas, eval, p.scope, p.resolved, iterations + 1, name);
        var o := Iterate(formulas, eval, p.scope, p.resolved, iterations + 1);
        SettledLater(formulas, eval, scope, resolved, iterations, name, o.scope[name]);
      }
    } else {
      GuardExit(formulas, scope, resolved, iterations);
      assert false;
    }
  }

  /** The scope `buildScopeWithFormulas` returns holds exactly the input keys
      and the formula names; input entries that are not formula names keep
      their value; every formula name is settled by the first formula of that
      name to evaluate successfully, in the scope of its turn, or by the zero
      fill (a formula overrides a variable of the same name); and the
      loop stops after at most |names| + 1 passes, within the 2 * |formulas| bound. */
  lemma BuildScopeSpec(variableValues: Scope, formulas: seq<Formula>, eval: Evaluator)
    ensures BuildScope(variableValues, formulas, eval).Keys == variableValues.Keys + Names(formulas)
    ensures forall k :: k in variableValues && k !in Names(formulas) ==>
      BuildScope(variableValues, formulas, eval)[k] == variableValues[k]
    ensures forall k :: k in Names(formulas) ==>
      SettledBy(formulas, eval, variableValues, {}, 0, k, BuildScope(variableValues, formulas, eval)[k])
    ensures BuildScopeOutcome(variableValues, formulas, eval).resolved == Names(formulas)
    ensures BuildScopeOutcome(variableValues, formulas, eval).passes <= |Names(formulas)| + 1
    ensures BuildScopeOutcome(variableValues, formulas, eval).passes <= 2 * |formulas|
  {
    IterateResolves(formulas, eval, variableValues, {}, 0);
    IterateKeys(formulas, eval, variableValues, {}, 0);
    IterateKeeps(formulas, eval, variableValues, {}, 0);
    IteratePasses(formulas, eval, variableValues, {}, 0);
    forall k | k in Names(formulas)
      ensures SettledBy(formulas, eval, variableValues, {}, 0, k, BuildScope(variableValues, formulas, eval)[k])
    {
      IterateSettles(formulas, eval, variableValues, {}, 0, k);
    }
    IterateBound(formulas, eval, variableValues, {}, 0);
  }

  /** A pass in which every formula fails ends the loop: every formula name
      is set to 0 after a single pass.  Genuine cycles such as
      `a = b + 1, b = a + 1` over a scope lacking `a` and `b` behave so. */
  lemma NoProgressSetsAllToZero(variableValues: Scope, formulas: seq<Formula>, eval: Evaluator)
    requires formulas != []
    requires forall f :: f in formulas ==> eval(SanitizeExpression(f.expression), variableValues).None?
    ensures BuildScopeOutcome(variableValues, formulas, eval).passes == 1
    ensures forall k :: k in Names(formulas) ==>
      k in BuildScope(variableValues, formulas, eval) && BuildScope(variableValues, formulas, eval)[k] == Num(0.0)
  {
    var st := PassState(variableValues, {}, false);
    AllFailingPass(formulas, eval, st);
    IterateUnfold(formulas, eval, variableValues, {}, 0);
    ForceZeroFacts(formulas, st);
  }

  lemma {:induction false} AllFailingPass(formulas: seq<Formula>, eval: Evaluator, st: PassState)
    requires forall f :: f in formulas ==> f.name in st.resolved || eval(SanitizeExpression(f.expression), st.scope).None?
    ensures RunPass(formulas, eval, st) == st
    decreases |formulas|
  {
    if formulas != [] {
      assert Attempt(formulas[0], eval, st) == st;
      AllFailingPass(formulas[1..], eval, st);
    }
  }

  /** The cyclic pair `a = b + 1, b = a + 1` degrades to `{a: 0, b: 0}`
      when the evaluator rejects each expression in a scope lacking the
      other name. */
  lemma CyclicPairDegradesToZero(eval: Evaluator)
    requires eval("b+1", map[]).None? && eval("a+1", map[]).None?
    ensures BuildScope(map[], [Formula("a", "b+1"), Formula("b", "a+1")], eval) == map["a" := Num(0.0), "b" := Num(0.0)]
    ensures BuildScopeOutcome(map[], [Formula("a", "b+1"), Formula("b", "a+1")], eval).passes == 1
  {
    var formulas := [Formula("a", "b+1"), Formula("b", "a+1")];
    SanitizeNoop("b+1");
    SanitizeNoop("a+1");
    assert "a" != "b";
    var p1 := RunPass(formulas, eval, PassState(map[], {}, false));
    assert p1 == PassState(map[], {}, false);
    assert ForceZero(formulas, p1) == PassState(map["a" := Num(0.0), "b" := Num(0.0)], {"a", "b"}, false);
  }

  /** A forward reference resolves on a later pass: `[b = a+1, a = 5]` gives
      `{a: 5, b: 6}` after two passes. */
  lemma ForwardReferenceResolves(eval: Evaluator)
    requires forall s :: "a" !in s ==> eval("a+1", s).None?
    requires forall s :: eval("5", s) == Some(Num(5.0))
    requires forall s :: "a" in s && s["a"] == Num(5.0) ==> eval("a+1", s) == Some(Num(6.0))
    ensures BuildScope(map[], [Formula("b", "a+1"), Formula("a", "5")], eval) == map["a" := Num(5.0), "b" := Num(6.0)]
    ensures BuildScopeOutcome(map[], [Formula("b", "a+1"), Formula("a", "5")], eval).passes == 2
  {
    var formulas := [Formula("b", "a+1"), Formula("a", "5")];
    SanitizeNoop("a+1");
    SanitizeNoop("5");
    assert "a" != "b";
    var p1 := RunPass(formulas, eval, PassState(map[], {}, false));
    assert p1 == PassState(map["a" := Num(5.0)], {"a"}, true);
    var p2 := RunPass(formulas, eval, PassState(p1.scope, p1.resolved, false));
    assert p2 == PassState(map["a" := Num(5.0), "b" := Num(6.0)], {"a", "b"}, true);
    assert |p2.resolved| == 2;
  }

  /** A chain in declaration order resolves in a single pass: `[a = 5, b = a+1]`. */
  lemma DeclarationOrderChainOnePass(eval: Evaluator)
    requires forall s :: eval("5", s) == Some(Num(5.0))
    requires forall s :: "a" in s && s["a"] == Num(5.0) ==> eval("a+1", s) == Some(Num(6.0))
    ensures BuildScope(map[], [Formula("a", "5"), Formula("b", "a+1")], eval) == map["a" := Num(5.0), "b" := Num(6.0)]
    ensures BuildScopeOutcome(map[], [Formula("a", "5"), Formula("b", "a+1")], eval).passes == 1
  {
    var formulas := [Formula("a", "5"), Formula("b", "a+1")];
    SanitizeNoop("a+1");
    SanitizeNoop("5");
    assert "a" != "b";
    var p1 := RunPass(formulas, eval, PassState(map[], {}, false));
    assert p1 == PassState(map["a" := Num(5.0), "b" := Num(6.0)], {"a", "b"}, true);
    assert |p1.resolved| == 2;
  }

  /** Of two formulas with the same name the first to evaluate wins:
      `[a = 1, a = 2]` gives `{a: 1}`.  The second is never evaluated, and
      since the resolved set never reaches `formulas.length` the loop ends
      only after a second pass that makes no progress. */
  lemma DuplicateNameFirstWins(eval: Evaluator)
    requires forall s :: eval("1", s) == Some(Num(1.0))
    ensures BuildScope(map[], [Formula("a", "1"), Formula("a", "2")], eval) == map["a" := Num(1.0)]
    ensures BuildScopeOutcome(map[], [Formula("a", "1"), Formula("a", "2")], eval).passes == 2
  {
    var formulas := [Formula("a", "1"), Formula("a", "2")];
    SanitizeNoop("1");
    var p1 := RunPass(formulas, eval, PassState(map[], {}, false));
    assert p1 == PassState(map["a" := Num(1.0)], {"a"}, true);
    var p2 := RunPass(formulas, eval, PassState(p1.scope, p1.resolved, false));
    assert p2 == PassState(p1.scope, p1.resolved, false);
    assert ForceZero(formulas, p2) == p2;
  }

  // ---------------------------------------------------------------------
  // buildScopeWithFormulas: the loop
  // ---------------------------------------------------------------------

  /** `buildScopeWithFormulas(variableValues, formulas, parser)`: works on a
      fresh copy of the input scope object, which it leaves unchanged. */
  method BuildScopeWithFormulas(variableValues: VariableScope, formulas: seq<Formula>, eval: Evaluator)
    returns (scope: VariableScope)
    ensures fresh(scope)
    ensures scope.entries == BuildScope(variableValues.entries, formulas, eval)
  {
    scope := new VariableScope(variableValues.entries);
    var evaluatedFormulas: set<string> := {};
    var maxIterations := |formulas| * 2;
    var iterations := 0;
    ghost var goal := BuildScope(variableValues.entries, formulas, eval);

    while |evaluatedFormulas| < |formulas| && iterations < maxIterations
      invariant 0 <= iterations <= maxIterations
      invariant Iterate(formulas, eval, scope.entries, evaluatedFormulas, iterations).scope == goal
      decreases maxIterations - iterations
    {
      ghost var entriesBefore, resolvedBefore := scope.entries, evaluatedFormulas;
      iterations := iterations + 1;
      var progressMade := false;

      var j := 0;
      while j < |formulas|
        invariant 0 <= j <= |formulas|
        invariant RunPass(formulas[j..], eval, PassState(scope.entries, evaluatedFormulas, progressMade))
          == RunPass(formulas, eval, PassState(entriesBefore, resolvedBefore, false))
      {
        var formula := formulas[j];
        assert formulas[j..][1..] == formulas[j + 1..];
        if formula.name !in evaluatedFormulas {
          var sanitizedFormulaExpr := SanitizeExpression(formula.expression);
          var result := eval(sanitizedFormulaExpr, scope.entries);
          if result.Some? {
            scope.entries := scope.entries[formula.name := result.value];
            evaluatedFormulas := evaluatedFormulas + {formula.name};
            progressMade := true;
          }
        }
        j := j + 1;
      }
      assert formulas[j..] == [];

      if !progressMade {
        ghost var filled := ForceZero(formulas, PassState(scope.entries, evaluatedFormulas, progressMade));
        var k := 0;
        while k < |formulas|
          invariant 0 <= k <= |formulas|
          invariant ForceZero(formulas[k..], PassState(scope.entries, evaluatedFormulas, progressMade)) == filled
        {
          var formula := formulas[k];
          assert formulas[k..][1..] == formulas[k + 1..];
          if formula.name !in evaluatedFormulas {
            scope.entries := scope.entries[formula.name := Num(0.0)];
            evaluatedFormulas := evaluatedFormulas + {formula.name};
          }
          k := k + 1;
        }
        assert formulas[k..] == [];
        assert scope.entries == goal;
        break;
      }
    }
  }

  // ---------------------------------------------------------------------
  // Formula lookup (`formulas.find(f => f.name === name)`)
  // ---------------------------------------------------------------------

  /** The first formula called `name`, if any. */
  function FindFormula(formulas: seq<Formula>, name: string): (r: Option<Formula>)
    ensures r.None? <==> forall i :: 0 <= i < |formulas| ==> formulas[i].name != name
    ensures r.Some? ==> exists i :: (0 <= i < |formulas| && formulas[i] == r.value && r.value.name == name &&
      forall j :: 0 <= j < i ==> formulas[j].name != name)
  {
    if formulas == [] then None
    else if formulas[0].name == name then Some(formulas[0])
    else
      var r := FindFormula(formulas[1..], name);
      assert r.Some? ==> exists i :: (0 <= i < |formulas[1..]| && formulas[1..][i] == r.value && r.value.name == name &&
        forall j :: 0 <= j < i ==> formulas[1..][j].name != name);
      r
  }
}
