/** The template parser (widget/src/utils/contentParser.ts): two
    left-to-right substitution passes over result text, first `{name}`
    variable placeholders, then `{formula:NAME}` formula placeholders.
    The two regular expressions are written out as scanners. */
module ContentParser {
  import opened Wrappers
  import opened Runtime
  import opened FormulaHelpers

  predicate NoOpenBrace(s: string) {
    forall i :: 0 <= i < |s| ==> s[i] != '{'
  }

  predicate NoCloseBrace(s: string) {
    forall i :: 0 <= i < |s| ==> s[i] != '}'
  }

  // ---------------------------------------------------------------------
  // Pass 1: /\{([a-zA-Z_][a-zA-Z0-9_]*)\}/g
  // ---------------------------------------------------------------------

  /** The length of the identifier of a `{name}` placeholder starting `s`,
      or 0 when `s` does not start with one (the converse, that every
      placeholder is found with its whole name, is `VariablePlaceholderLength`). */
  function VariableNameLength(s: string): (n: nat)
    ensures n > 0 ==> n + 2 <= |s| && s[0] == '{' && IsIdentifier(s[1..n + 1]) && s[n + 1] == '}'
    ensures |s| == 0 || s[0] != '{' ==> n == 0
  {
    if |s| >= 2 && s[0] == '{' && IsIdentStart(s[1]) then
      var n := IdentRun(s[1..]);
      if 1 + n < |s| && s[1 + n] == '}' then n else 0
    else 0
  }

  /** The replacement of one `{name}` match: `String(value)` for a defined
      variable, the match itself otherwise. */
  function VariableReplacement(name: string, variableValues: map<string, real>, numberToString: real -> string): string {
    if name in variableValues then numberToString(variableValues[name]) else "{" + name + "}"
  }

  /** `content.replace(/\{([a-zA-Z_][a-zA-Z0-9_]*)\}/g, ...)`. */
  function SubstituteVariables(s: string, variableValues: map<string, real>, numberToString: real -> string): string
    decreases |s|
  {
    if s == [] then []
    else
      var n := VariableNameLength(s);
      if n > 0 then
        VariableReplacement(s[1..n + 1], variableValues, numberToString) + SubstituteVariables(s[n + 2..], variableValues, numberToString)
      else
        [s[0]] + SubstituteVariables(s[1..], variableValues, numberToString)
  }

  /** Text without `{` passes through pass 1 unchanged, and in front of other text as well. */
  lemma {:induction false} VariablesPrefix(p: string, s: string, variableValues: map<string, real>, numberToString: real -> string)
    requires NoOpenBrace(p)
    ensures SubstituteVariables(p + s, variableValues, numberToString) == p + SubstituteVariables(s, variableValues, numberToString)
    decreases |p|
  {
    if p != [] {
      var t := p + s;
      assert t[0] == p[0];
      VariablesStep(t, variableValues, numberToString);
      assert t[1..] == p[1..] + s;
      VariablesPrefix(p[1..], s, variableValues, numberToString);
      calc {
        SubstituteVariables(t, variableValues, numberToString);
        [p[0]] + SubstituteVariables(p[1..] + s, variableValues, numberToString);
        [p[0]] + (p[1..] + SubstituteVariables(s, variableValues, numberToString));
        ([p[0]] + p[1..]) + SubstituteVariables(s, variableValues, numberToString);
        { assert p == [p[0]] + p[1..]; }
        p + SubstituteVariables(s, variableValues, numberToString);
      }
    } else {
      assert p + s == s;
    }
  }

  /** A character that starts no placeholder is copied by pass 1. */
  lemma VariablesStep(s: string, variableValues: map<string, real>, numberToString: real -> string)
    requires s != [] && VariableNameLength(s) == 0
    ensures SubstituteVariables(s, variableValues, numberToString) == [s[0]] + SubstituteVariables(s[1..], variableValues, numberToString)
  {
  }

  /** A `{name}` placeholder is matched with exactly `name` as its identifier. */
  lemma VariablePlaceholderLength(name: string, rest: string)
    requires IsIdentifier(name)
    ensures VariableNameLength("{" + name + "}" + rest) == |name|
  {
    var s := "{" + name + "}" + rest;
    assert s[1..] == name + ("}" + rest);
    IdentRunOver(name, "}" + rest);
    assert s[1 + |name|] == '}';
  }

  /** A `{name}` placeholder is replaced by the variable's `String` value
      when the variable is defined and kept verbatim otherwise; scanning
      resumes right after it. */
  lemma VariablesPlaceholder(name: string, rest: string, variableValues: map<string, real>, numberToString: real -> string)
    requires IsIdentifier(name)
    ensures SubstituteVariables("{" + name + "}" + rest, variableValues, numberToString) ==
      (if name in variableValues then numberToString(variableValues[name]) else "{" + name + "}") +
      SubstituteVariables(rest, variableValues, numberToString)
  {
    var s := "{" + name + "}" + rest;
    VariablePlaceholderLength(name, rest);
    assert s[1..|name| + 1] == name;
    assert s[|name| + 2..] == rest;
  }

  /** A `{formula:...}` token starts no variable placeholder. */
  lemma FormulaTokenIsNoVariable(s: string, rest: string)
    requires s == "{formula:" + rest
    ensures VariableNameLength(s) == 0
  {
    assert s[0] == '{' && IsIdentStart(s[1]);
    assert s[1..] == "formula" + (":" + rest);
    IdentRunOver("formula", ":" + rest);
    assert s[8] == ':';
  }

  lemma FormulaWordHasNoOpenBrace(t: string)
    requires t == "formula:"
    ensures NoOpenBrace(t)
  {
    forall i | 0 <= i < |t| ensures t[i] != '{' {
      assert t[i] in "formula:";
    }
  }

  /** A character that starts no placeholder, followed by text without
      `{`, is copied by pass 1. */
  lemma VariablesSkipWord(head: char, word: string, rest: string, variableValues: map<string, real>, numberToString: real -> string)
    requires VariableNameLength([head] + word + rest) == 0 && NoOpenBrace(word)
    ensures SubstituteVariables([head] + word + rest, variableValues, numberToString) ==
      [head] + word + SubstituteVariables(rest, variableValues, numberToString)
  {
    var s := [head] + word + rest;
    VariablesStep(s, variableValues, numberToString);
    assert s[1..] == word + rest;
    VariablesPrefix(word, rest, variableValues, numberToString);
    Assoc([head], word, SubstituteVariables(rest, variableValues, numberToString));
  }

  /** Pass 1 never matches a `{formula:...}` token: `:` is no identifier character. */
  lemma VariablesSkipFormulaToken(rest: string, variableValues: map<string, real>, numberToString: real -> string)
    ensures SubstituteVariables("{formula:" + rest, variableValues, numberToString) ==
      "{formula:" + SubstituteVariables(rest, variableValues, numberToString)
  {
    var word := "formula:";
    assert "{formula:" == ['{'] + word;
    FormulaTokenIsNoVariable("{formula:" + rest, rest);
    FormulaWordHasNoOpenBrace(word);
    VariablesSkipWord('{', word, rest, variableValues, numberToString);
  }

  // ---------------------------------------------------------------------
  // Pass 2: /\{formula:([^}]+)\}/g
  // ---------------------------------------------------------------------

  /** Length of the longest prefix of `s` without `}`. */
  function NonBraceRun(s: string): (m: nat)
    ensures m <= |s|
    ensures NoCloseBrace(s[..m])
    ensures m < |s| ==> s[m] == '}'
  {
    if s == [] || s[0] == '}' then 0
    else
      var m := 1 + NonBraceRun(s[1..]);
      assert s[..m] == [s[0]] + s[1..][..m - 1];
      m
  }

  /** The length of the name of a `{formula:NAME}` placeholder starting `s`,
      or 0 when `s` does not start with one. */
  function FormulaNameLength(s: string): (m: nat)
    ensures m > 0 ==> m + 10 <= |s| && s[..9] == "{formula:" && NoCloseBrace(s[9..9 + m]) && s[9 + m] == '}'
    ensures |s| == 0 || s[0] != '{' ==> m == 0
  {
    if |s| >= 9 && s[..9] == "{formula:" then
      var m := NonBraceRun(s[9..]);
      assert s[9..][..m] == s[9..9 + m];
      if m > 0 && 9 + m < |s| then m else 0
    else 0
  }

  /** The replacement of one `{formula:NAME}` match: the first formula of
      that name evaluated and formatted with `toFixed(2)`, the match itself
      when there is none.  `evaluateFormula` returns a number, so the
      `result === null` and non-number branches never apply. */
  function FormulaReplacement(name: string, formulas: seq<Formula>, evaluateFormula: string -> real, toFixed2: real -> string): string {
    match FindFormula(formulas, name)
    case None => "{formula:" + name + "}"
    case Some(f) => toFixed2(evaluateFormula(f.expression))
  }

  /** `parsed.replace(/\{formula:([^}]+)\}/g, ...)`. */
  function SubstituteFormulas(s: string, formulas: seq<Formula>, evaluateFormula: string -> real, toFixed2: real -> string): string
    decreases |s|
  {
    if s == [] then []
    else
      var m := FormulaNameLength(s);
      if m > 0 then
        FormulaReplacement(s[9..9 + m], formulas, evaluateFormula, toFixed2) + SubstituteFormulas(s[10 + m..], formulas, evaluateFormula, toFixed2)
      else
        [s[0]] + SubstituteFormulas(s[1..], formulas, evaluateFormula, toFixed2)
  }

  /** Text without `{` passes through pass 2 unchanged, and in front of other text as well. */
  lemma {:induction false} FormulasPrefix(p: string, s: string, formulas: seq<Formula>, evaluateFormula: string -> real, toFixed2: real -> string)
    requires NoOpenBrace(p)
    ensures SubstituteFormulas(p + s, formulas, evaluateFormula, toFixed2) == p + SubstituteFormulas(s, formulas, evaluateFormula, toFixed2)
    decreases |p|
  {
    if p != [] {
      var t := p + s;
      assert t[0] == p[0];
      FormulasStep(t, formulas, evaluateFormula, toFixed2);
      assert t[1..] == p[1..] + s;
      FormulasPrefix(p[1..], s, formulas, evaluateFormula, toFixed2);
      calc {
        SubstituteFormulas(t, formulas, evaluateFormula, toFixed2);
        [p[0]] + SubstituteFormulas(p[1..] + s, formulas, evaluateFormula, toFixed2);
        [p[0]] + (p[1..] + SubstituteFormulas(s, formulas, evaluateFormula, toFixed2));
        ([p[0]] + p[1..]) + SubstituteFormulas(s, formulas, evaluateFormula, toFixed2);
        { assert p == [p[0]] + p[1..]; }
        p + SubstituteFormulas(s, formulas, evaluateFormula, toFixed2);
      }
    } else {
      assert p + s == s;
    }
  }

  /** A character that starts no placeholder is copied by pass 2. */
  lemma FormulasStep(s: string, formulas: seq<Formula>, evaluateFormula: string -> real, toFixed2: real -> string)
    requires s != [] && FormulaNameLength(s) == 0
    ensures SubstituteFormulas(s, formulas, evaluateFormula, toFixed2) == [s[0]] + SubstituteFormulas(s[1..], formulas, evaluateFormula, toFixed2)
  {
  }

  /** `NonBraceRun` stops exactly at the `}` that follows a `}`-free name. */
  lemma {:induction false} NonBraceRunOver(name: string, rest: string)
    requires NoCloseBrace(name)
    ensures NonBraceRun(name + "}" + rest) == |name|
    decreases |name|
  {
    if name != [] {
      assert (name + "}" + rest)[0] == name[0];
      assert (name + "}" + rest)[1..] == name[1..] + "}" + rest;
      NonBraceRunOver(name[1..], rest);
    }
  }

  /** A `{formula:NAME}` placeholder is replaced by the first formula of
      that name, evaluated and formatted to two decimals, and kept verbatim
      when there is none; scanning resumes right after it. */
  lemma FormulasPlaceholder(name: string, rest: string, formulas: seq<Formula>, evaluateFormula: string -> real, toFixed2: real -> string)
    requires |name| > 0 && NoCloseBrace(name)
    ensures SubstituteFormulas("{formula:" + name + "}" + rest, formulas, evaluateFormula, toFixed2) ==
      (match FindFormula(formulas, name)
       case None => "{formula:" + name + "}"
       case Some(f) => toFixed2(evaluateFormula(f.expression))) +
      SubstituteFormulas(rest, formulas, evaluateFormula, toFixed2)
  {
    var s := "{formula:" + name + "}" + rest;
    assert s[..9] == "{formula:";
    assert s[9..] == name + "}" + rest;
    NonBraceRunOver(name, rest);
    assert s[9..9 + |name|] == name;
    assert s[10 + |name|..] == rest;
  }

  // ---------------------------------------------------------------------
  // parseResultContent
  // ---------------------------------------------------------------------

  /** `parseResultContent(content, variableValues, formulas, evaluateFormula)`;
      an absent content is the empty string. */
  function ParseResultContent(content: string, variableValues: map<string, real>, formulas: seq<Formula>,
                              evaluateFormula: string -> real, host: Host): (r: string)
    ensures content == "" ==> r == ""
  {
    if content == "" then ""
    else
      var parsed := SubstituteVariables(content, variableValues, host.numberToString);
      SubstituteFormulas(parsed, formulas, evaluateFormula, host.toFixed2)
  }

  /** Content without `{` is returned unchanged. */
  lemma NoPlaceholderUnchanged(content: string, variableValues: map<string, real>, formulas: seq<Formula>,
                               evaluateFormula: string -> real, host: Host)
    requires NoOpenBrace(content)
    ensures ParseResultContent(content, variableValues, formulas, evaluateFormula, host) == content
  {
    VariablesPrefix(content, "", variableValues, host.numberToString);
    assert content + "" == content;
    FormulasPrefix(content, "", formulas, evaluateFormula, host.toFixed2);
  }

  /** Pass 2 leaves a `{name}` placeholder alone: no identifier contains `:`. */
  lemma FormulasSkipVariablePlaceholder(name: string, formulas: seq<Formula>, evaluateFormula: string -> real, toFixed2: real -> string)
    requires IsIdentifier(name)
    ensures SubstituteFormulas("{" + name + "}", formulas, evaluateFormula, toFixed2) == "{" + name + "}"
  {
    var placeholder := "{" + name + "}";
    if |placeholder| >= 9 {
      assert placeholder[8] != ':' by {
        if |name| >= 8 {
          assert placeholder[8] == name[7];
        }
      }
      assert placeholder[..9] != "{formula:" by {
        assert "{formula:"[8] == ':';
      }
    }
    FormulasStep(placeholder, formulas, evaluateFormula, toFixed2);
    assert placeholder[1..] == name + "}" + "";
    assert NoOpenBrace(name + "}");
    FormulasPrefix(name + "}", "", formulas, evaluateFormula, toFixed2);
  }

  /** A placeholder naming an undefined variable passes through both passes verbatim. */
  lemma UndefinedPlaceholderVerbatim(name: string, variableValues: map<string, real>, formulas: seq<Formula>,
                                     evaluateFormula: string -> real, host: Host)
    requires IsIdentifier(name) && name !in variableValues
    ensures ParseResultContent("{" + name + "}", variableValues, formulas, evaluateFormula, host) == "{" + name + "}"
  {
    assert "{" + name + "}" == "{" + name + "}" + "";
    VariablesPlaceholder(name, "", variableValues, host.numberToString);
    FormulasSkipVariablePlaceholder(name, formulas, evaluateFormula, host.toFixed2);
  }

  // The example texts below are parameters fixed by `requires` rather than
  // literals in the contracts, so that the solver unfolds them only where a
  // proof step needs it.

  /** `{unknown}` with no variables and no formulas stays `{unknown}`. */
  lemma UnknownPlaceholderExample(name: string, evaluateFormula: string -> real, host: Host)
    requires name == "unknown"
    ensures ParseResultContent("{" + name + "}", map[], [], evaluateFormula, host) == "{" + name + "}"
  {
    assert IsIdentifier(name);
    UndefinedPlaceholderVerbatim(name, map[], [], evaluateFormula, host);
  }

  /** Concatenation regroups; stated once so that the proofs below name the
      regrouping they need instead of leaving the solver to search for it. */
  lemma Assoc(a: string, b: string, c: string)
    ensures (a + b) + c == a + (b + c)
  {
  }

  lemma NoOpenBraceConcat(a: string, b: string)
    requires NoOpenBrace(a) && NoOpenBrace(b)
    ensures NoOpenBrace(a + b)
  {
    assert forall i :: 0 <= i < |a + b| ==> (a + b)[i] == if i < |a| then a[i] else b[i - |a|];
  }

  /** Pass 1 over text, a variable placeholder, text and a formula token. */
  lemma VariablePass(pre: string, name: string, mid: string, token: string, variableValues: map<string, real>, numberToString: real -> string)
    requires NoOpenBrace(pre) && NoOpenBrace(mid) && IsIdentifier(name)
    requires SubstituteVariables(token, variableValues, numberToString) == token
    ensures SubstituteVariables(pre + ("{" + name + "}" + (mid + token)), variableValues, numberToString) ==
      pre + (VariableReplacement(name, variableValues, numberToString) + (mid + token))
  {
    var value := VariableReplacement(name, variableValues, numberToString);
    calc {
      SubstituteVariables(pre + ("{" + name + "}" + (mid + token)), variableValues, numberToString);
      { VariablesPrefix(pre, "{" + name + "}" + (mid + token), variableValues, numberToString); }
      pre + SubstituteVariables("{" + name + "}" + (mid + token), variableValues, numberToString);
      { VariablesPlaceholder(name, mid + token, variableValues, numberToString); }
      pre + (value + SubstituteVariables(mid + token, variableValues, numberToString));
      { VariablesPrefix(mid, token, variableValues, numberToString); }
      pre + (value + (mid + token));
    }
  }

  /** Pass 1 leaves a `{formula:NAME}` token followed by text without `{` alone. */
  lemma VariablePassSkipsToken(formulaName: string, post: string, variableValues: map<string, real>, numberToString: real -> string)
    requires NoCloseBrace(formulaName) && NoOpenBrace(formulaName) && NoOpenBrace(post)
    ensures SubstituteVariables("{formula:" + formulaName + "}" + post, variableValues, numberToString) ==
      "{formula:" + formulaName + "}" + post
  {
    var rest := formulaName + ("}" + post);
    assert NoOpenBrace("}" + post) by {
      NoOpenBraceConcat("}", post);
    }
    NoOpenBraceConcat(formulaName, "}" + post);
    assert "{formula:" + formulaName + "}" + post == "{formula:" + rest;
    VariablesSkipFormulaToken(rest, variableValues, numberToString);
    VariablesPrefix(rest, "", variableValues, numberToString);
    assert rest + "" == rest;
  }

  /** Pass 2 over text without `{`, a formula placeholder and text without `{`. */
  lemma FormulaPass(pre: string, formulaName: string, post: string, formulas: seq<Formula>, evaluateFormula: string -> real, toFixed2: real -> string)
    requires NoOpenBrace(pre) && NoOpenBrace(post) && |formulaName| > 0 && NoCloseBrace(formulaName)
    ensures SubstituteFormulas(pre + ("{formula:" + formulaName + "}" + post), formulas, evaluateFormula, toFixed2) ==
      pre + (FormulaReplacement(formulaName, formulas, evaluateFormula, toFixed2) + post)
  {
    calc {
      SubstituteFormulas(pre + ("{formula:" + formulaName + "}" + post), formulas, evaluateFormula, toFixed2);
      { FormulasPrefix(pre, "{formula:" + formulaName + "}" + post, formulas, evaluateFormula, toFixed2); }
      pre + SubstituteFormulas("{formula:" + formulaName + "}" + post, formulas, evaluateFormula, toFixed2);
      { FormulasPlaceholder(formulaName, post, formulas, evaluateFormula, toFixed2); }
      pre + (FormulaReplacement(formulaName, formulas, evaluateFormula, toFixed2) + SubstituteFormulas(post, formulas, evaluateFormula, toFixed2));
      { FormulasPrefix(post, "", formulas, evaluateFormula, toFixed2);
        assert post + "" == post; }
      pre + (FormulaReplacement(formulaName, formulas, evaluateFormula, toFixed2) + post);
    }
  }

  /** Text with one variable placeholder followed by one formula
      placeholder: the surrounding text is kept, the variable placeholder
      is substituted by pass 1 and the formula placeholder by pass 2, as
      long as the variable's text opens no new placeholder. */
  lemma VariableThenFormula(pre: string, name: string, mid: string, formulaName: string, post: string,
                            variableValues: map<string, real>, formulas: seq<Formula>, evaluateFormula: string -> real, host: Host)
    requires NoOpenBrace(pre) && NoOpenBrace(mid) && NoOpenBrace(post)
    requires IsIdentifier(name) && |formulaName| > 0 && NoCloseBrace(formulaName) && NoOpenBrace(formulaName)
    requires NoOpenBrace(VariableReplacement(name, variableValues, host.numberToString))
    ensures ParseResultContent(pre + ("{" + name + "}" + (mid + ("{formula:" + formulaName + "}" + post))),
      variableValues, formulas, evaluateFormula, host) ==
      pre + (VariableReplacement(name, variableValues, host.numberToString) + (mid +
      (FormulaReplacement(formulaName, formulas, evaluateFormula, host.toFixed2) + post)))
  {
    var value := VariableReplacement(name, variableValues, host.numberToString);
    var token := "{formula:" + formulaName + "}" + post;
    VariablePassSkipsToken(formulaName, post, variableValues, host.numberToString);
    VariablePass(pre, name, mid, token, variableValues, host.numberToString);
    var head := pre + (value + mid);
    Assoc(pre, value + mid, token);
    Assoc(value, mid, token);
    NoOpenBraceConcat(value, mid);
    NoOpenBraceConcat(pre, value + mid);
    FormulaPass(head, formulaName, post, formulas, evaluateFormula, host.toFixed2);
    var tail := FormulaReplacement(formulaName, formulas, evaluateFormula, host.toFixed2) + post;
    Assoc(pre, value + mid, tail);
    Assoc(value, mid, tail);
  }

  /** `"Total: {total} ({formula:tax})"` with `total = 100` and a formula
      `tax = total*0.1` gives `"Total: 100 (10.00)"` when `String(100)` is
      `"100"`, the formula evaluates to 10 and `(10).toFixed(2)` is `"10.00"`. */
  lemma TotalAndTaxExample(content: string, evaluateFormula: string -> real, host: Host)
    requires content == "Total: {total} ({formula:tax})"
    requires host.numberToString(100.0) == "100"
    requires evaluateFormula("total*0.1") == 10.0
    requires host.toFixed2(10.0) == "10.00"
    ensures ParseResultContent(content, map["total" := 100.0], [Formula("tax", "total*0.1")], evaluateFormula, host) ==
      "Total: 100 (10.00)"
  {
    var vars := map["total" := 100.0];
    var formulas := [Formula("tax", "total*0.1")];
    TotalAndTaxShape(content);
    TotalAndTaxReplacements(vars, formulas, evaluateFormula, host);
    VariableThenFormula("Total: ", "total", " (", "tax", ")", vars, formulas, evaluateFormula, host);
  }

  /** The example text, split at its two placeholders. */
  lemma TotalAndTaxShape(content: string)
    requires content == "Total: {total} ({formula:tax})"
    ensures content == "Total: " + ("{" + "total" + "}" + (" (" + ("{formula:" + "tax" + "}" + ")")))
  {
  }

  /** The two replacements the example text receives. */
  lemma TotalAndTaxReplacements(vars: map<string, real>, formulas: seq<Formula>, evaluateFormula: string -> real, host: Host)
    requires vars == map["total" := 100.0] && formulas == [Formula("tax", "total*0.1")]
    requires host.numberToString(100.0) == "100"
    requires evaluateFormula("total*0.1") == 10.0
    requires host.toFixed2(10.0) == "10.00"
    ensures IsIdentifier("total") && NoOpenBrace("Total: ") && NoOpenBrace(" (") && NoOpenBrace(")")
    ensures NoCloseBrace("tax") && NoOpenBrace("tax")
    ensures VariableReplacement("total", vars, host.numberToString) == "100"
    ensures FormulaReplacement("tax", formulas, evaluateFormula, host.toFixed2) == "10.00"
  {
    assert FindFormula(formulas, "tax") == Some(Formula("tax", "total*0.1"));
  }
}
