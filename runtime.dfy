/** The JavaScript runtime facilities the widget relies on but that are not
    part of it: the `expr-eval` expression evaluator and the number/string
    conversions `String(n)`, `n.toFixed(2)` and `parseFloat(s)`.  They are
    modelled as uninterpreted function values bundled in `Host`, so every
    property proved below holds for any evaluator and any conversion. */
module Runtime {
  import opened Wrappers

  /** A value stored in an evaluation scope.  Variables are always numbers;
      `expr-eval` may also return non-numbers (booleans, strings, arrays),
      which `buildScopeWithFormulas` stores unchecked. */
  datatype Value = Num(n: real) | NonNumber

  /** The flat name-to-value mapping an expression is evaluated against. */
  type Scope = map<string, Value>

  /** `parser.evaluate(expr, scope)`: `None` stands for a thrown exception
      (syntax error, unknown identifier, ...). */
  type Evaluator = (string, Scope) -> Option<Value>

  datatype Host = Host(
    evaluate: Evaluator,
    numberToString: real -> string,     // String(n)
    toFixed2: real -> string,           // n.toFixed(2)
    parseFloat: string -> Option<real>  // parseFloat(s); None is NaN
  )

  /** The property key JavaScript uses for `obj[name]`: an `undefined` name
      is converted to the string "undefined". */
  function PropertyKey(name: Option<string>): (k: string)
    ensures name.Some? ==> k == name.value
  {
    name.GetOr("undefined")
  }

  /** JavaScript truthiness of an optional string: present and non-empty. */
  predicate Truthy(s: Option<string>) {
    s.Some? && s.value != ""
  }

  /** `m[key] ?? fallback` on a numeric map. */
  function LookupOr(m: map<string, real>, key: string, fallback: real): (r: real)
    ensures key in m ==> r == m[key]
    ensures key !in m ==> r == fallback
  {
    if key in m then m[key] else fallback
  }
}
