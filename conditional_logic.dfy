/** The conditional rule engine (widget/src/hooks/useConditionalLogic.ts):
    conditions compare a variable or a formula value with a constant, and a
    conditional line is an if / elseif / else chain whose first matching
    block supplies the message and style. */
module ConditionalLogic {
  import opened Wrappers
  import opened Runtime
  import opened FormulaHelpers

  /** `condition.targetType`; any other string behaves as an absent one. */
  datatype TargetType = VariableTarget | FormulaTarget

  /** `condition.value`, a string or a number in the schema. */
  datatype ConditionValue = Text(text: string) | Number(number: real)

  datatype Condition = Condition(
    target: Option<string>,
    targetType: Option<TargetType>,
    formula: Option<string>,   // legacy form: the formula's name
    operator: string,
    value: ConditionValue
  )

  /** `block.type`: every block that is not `'else'` is a condition block. */
  datatype BlockType = If | ElseIf | Else

  /** `block.logicalOperator`; any other value behaves as `'and'`. */
  datatype LogicalOperator = And | Or

  datatype ConditionalBlock = ConditionalBlock(
    blockType: BlockType,
    conditions: Option<seq<Condition>>,
    condition: Option<Condition>,   // legacy single condition
    logicalOperator: Option<LogicalOperator>,
    message: string,
    style: Option<string>
  )

  datatype ConditionalLine = ConditionalLine(blocks: Option<seq<ConditionalBlock>>)

  datatype ConditionalResult = ConditionalResult(message: string, style: Option<string>)

  /** What a condition is evaluated against: the hook's captured variable
      values and formulas, its `evaluateFormula` callback and the runtime's
      `String` and `parseFloat`. */
  datatype Env = Env(
    variableValues: map<string, real>,
    formulas: seq<Formula>,
    evaluateFormula: string -> real,
    host: Host
  )

  // ---------------------------------------------------------------------
  // The operator table
  // ---------------------------------------------------------------------

  datatype Comparison = GreaterThan | LessThan | GreaterEqual | LessEqual | Equal | NotEqual

  /** `operators[name]`: defined for exactly the six operator names. */
  function OperatorFor(name: string): (r: Option<Comparison>)
    ensures r.Some? <==> name in {"greater_than", "less_than", "greater_equal", "less_equal", "equal", "not_equal"}
    ensures r == Some(GreaterThan) <==> name == "greater_than"
    ensures r == Some(NotEqual) <==> name == "not_equal"
  {
    match name
    case "greater_than" => Some(GreaterThan)
    case "less_than" => Some(LessThan)
    case "greater_equal" => Some(GreaterEqual)
    case "less_equal" => Some(LessEqual)
    case "equal" => Some(Equal)
    case "not_equal" => Some(NotEqual)
    case _ => None
  }

  /** `operator(a, b)` on numbers, where `b` may be NaN (`None`): every
      comparison with NaN is false except `!=`, which is true. */
  function Compare(op: Comparison, a: real, b: Option<real>): (r: bool)
    ensures b.None? ==> (r <==> op == NotEqual)
    ensures b.Some? && op == GreaterThan ==> (r <==> a > b.value)
    ensures b.Some? && op == LessThan ==> (r <==> a < b.value)
    ensures b.Some? && op == GreaterEqual ==> (r <==> a >= b.value)
    ensures b.Some? && op == LessEqual ==> (r <==> a <= b.value)
    ensures b.Some? && op == Equal ==> (r <==> a == b.value)
    ensures b.Some? && op == NotEqual ==> (r <==> a != b.value)
  {
    match b
    case None => op == NotEqual
    case Some(v) =>
      match op
      case GreaterThan => a > v
      case LessThan => a < v
      case GreaterEqual => a >= v
      case LessEqual => a <= v
      case Equal => a == v
      case NotEqual => a != v
  }

  // ---------------------------------------------------------------------
  // evaluateCondition
  // ---------------------------------------------------------------------

  /** `formulas.find(f => f.name === name)` for a possibly absent name:
      an absent name equals no formula name. */
  function FindByName(formulas: seq<Formula>, name: Option<string>): Option<Formula> {
    if name.None? then None else FindFormula(formulas, name.value)
  }

  /** `targetValue`: `None` stands for `null`. */
  function TargetValue(c: Condition, env: Env): Option<real> {
    if c.targetType == Some(VariableTarget) then
      Some(LookupOr(env.variableValues, PropertyKey(c.target), 0.0))
    else if c.targetType == Some(FormulaTarget) then
      match FindByName(env.formulas, c.target)
      case Some(f) => Some(env.evaluateFormula(f.expression))
      case None => None
    else if Truthy(c.formula) then
      match FindFormula(env.formulas, c.formula.value)
      case Some(f) => Some(env.evaluateFormula(f.expression))
      case None => None
    else
      None
  }

  /** `parseFloat(String(condition.value))`. */
  function ConditionNumber(v: ConditionValue, host: Host): Option<real> {
    match v
    case Text(s) => host.parseFloat(s)
    case Number(n) => host.parseFloat(host.numberToString(n))
  }

  /** `evaluateCondition(condition)`. */
  function EvaluateCondition(c: Condition, env: Env): bool {
    match TargetValue(c, env)
    case None => false
    case Some(t) =>
      match OperatorFor(c.operator)
      case None => false
      case Some(op) => Compare(op, t, ConditionNumber(c.value, env.host))
  }

  /** A variable target compares the variable's value, or 0 when it is
      absent, using the named operator. */
  lemma VariableTargetCompares(c: Condition, env: Env)
    requires c.targetType == Some(VariableTarget)
    ensures EvaluateCondition(c, env) <==>
      OperatorFor(c.operator).Some? &&
      Compare(OperatorFor(c.operator).value, LookupOr(env.variableValues, PropertyKey(c.target), 0.0), ConditionNumber(c.value, env.host))
  {
  }

  /** A formula target naming no formula is false under every operator and
      value, whatever the legacy field says. */
  lemma MissingFormulaNeverMatches(c: Condition, env: Env)
    requires c.targetType == Some(FormulaTarget)
    requires c.target.None? || forall i :: 0 <= i < |env.formulas| ==> env.formulas[i].name != c.target.value
    ensures !EvaluateCondition(c, env)
  {
  }

  /** A formula target that names a formula compares the value of the first
      formula of that name. */
  lemma FormulaTargetCompares(c: Condition, env: Env, i: nat)
    requires c.targetType == Some(FormulaTarget) && c.target.Some?
    requires i < |env.formulas| && env.formulas[i].name == c.target.value
    requires forall j :: 0 <= j < i ==> env.formulas[j].name != c.target.value
    ensures EvaluateCondition(c, env) <==>
      OperatorFor(c.operator).Some? &&
      Compare(OperatorFor(c.operator).value, env.evaluateFormula(env.formulas[i].expression), ConditionNumber(c.value, env.host))
  {
    var r := FindFormula(env.formulas, c.target.value);
    assert r.Some?;
    var k :| 0 <= k < |env.formulas| && env.formulas[k] == r.value && r.value.name == c.target.value &&
      forall j :: 0 <= j < k ==> env.formulas[j].name != c.target.value;
    assert k == i;
  }

  /** The legacy `formula` field is consulted only when there is no target type. */
  lemma LegacyFieldIgnoredWithTargetType(c: Condition, env: Env, legacy: Option<string>)
    requires c.targetType.Some?
    ensures EvaluateCondition(c.(formula := legacy), env) == EvaluateCondition(c, env)
  {
    var d := c.(formula := legacy);
    if c.targetType.value == FormulaTarget {
      assert c.targetType == Some(FormulaTarget);
    }
    assert TargetValue(d, env) == TargetValue(c, env);
  }

  /** Without a target type, a non-empty legacy `formula` field behaves as a
      formula target of that name. */
  lemma LegacyFieldIsFormulaTarget(c: Condition, env: Env)
    requires c.targetType.None? && Truthy(c.formula)
    ensures EvaluateCondition(c, env) == EvaluateCondition(c.(targetType := Some(FormulaTarget), target := c.formula), env)
  {
  }

  /** With neither a target type nor a legacy formula, the condition is false. */
  lemma UntargetedNeverMatches(c: Condition, env: Env)
    requires c.targetType.None? && !Truthy(c.formula)
    ensures !EvaluateCondition(c, env)
  {
  }

  /** An operator outside the table makes the condition false. */
  lemma UnknownOperatorNeverMatches(c: Condition, env: Env)
    requires c.operator !in {"greater_than", "less_than", "greater_equal", "less_equal", "equal", "not_equal"}
    ensures !EvaluateCondition(c, env)
  {
  }

  /** When the value does not parse as a number (NaN), a condition holds
      exactly when its target resolves and its operator is `not_equal`. */
  lemma NotANumberOnlyNotEqual(c: Condition, env: Env)
    requires ConditionNumber(c.value, env.host).None?
    ensures EvaluateCondition(c, env) <==> TargetValue(c, env).Some? && c.operator == "not_equal"
  {
  }

  // ---------------------------------------------------------------------
  // evaluateConditionalLine
  // ---------------------------------------------------------------------

  /** `block.conditions.some(evaluateCondition)`. */
  predicate AnyHolds(conditions: seq<Condition>, env: Env) {
    exists i | 0 <= i < |conditions| :: EvaluateCondition(conditions[i], env)
  }

  /** `block.conditions.every(evaluateCondition)`. */
  predicate AllHold(conditions: seq<Condition>, env: Env) {
    forall i | 0 <= i < |conditions| :: EvaluateCondition(conditions[i], env)
  }

  /** Whether the scan stops at this block: an `else` block always does,
      a condition block when its conditions hold. */
  predicate BlockMatches(b: ConditionalBlock, env: Env) {
    if b.blockType == Else then true
    else if b.conditions.Some? && |b.conditions.value| > 0 then
      if b.logicalOperator == Some(Or) then AnyHolds(b.conditions.value, env)
      else AllHold(b.conditions.value, env)
    else if b.condition.Some? then EvaluateCondition(b.condition.value, env)
    else false
  }

  /** The index of the first block that matches, if any. */
  function FirstMatch(blocks: seq<ConditionalBlock>, env: Env): (r: Option<nat>)
    ensures r.None? <==> forall j :: 0 <= j < |blocks| ==> !BlockMatches(blocks[j], env)
    ensures r.Some? ==> (r.value < |blocks| && BlockMatches(blocks[r.value], env) &&
      forall j :: 0 <= j < r.value ==> !BlockMatches(blocks[j], env))
  {
    if blocks == [] then None
    else if BlockMatches(blocks[0], env) then Some(0)
    else
      match FirstMatch(blocks[1..], env)
      case None => None
      case Some(i) => Some(i + 1)
  }

  /** The value `evaluateConditionalLine(line, parseResultContent)` returns. */
  function LineResult(line: ConditionalLine, env: Env, parse: string -> string): Option<ConditionalResult> {
    if line.blocks.None? || |line.blocks.value| == 0 then None
    else
      match FirstMatch(line.blocks.value, env)
      case None => None
      case Some(i) => Some(ConditionalResult(parse(line.blocks.value[i].message), line.blocks.value[i].style))
  }

  /** `'if'` and `'elseif'` blocks are evaluated identically. */
  lemma IfAndElseIfAlike(b: ConditionalBlock, env: Env)
    requires b.blockType != Else
    ensures BlockMatches(b.(blockType := If), env) == BlockMatches(b.(blockType := ElseIf), env)
  {
  }

  /** A non-empty `conditions` list overrides the legacy single `condition`. */
  lemma LegacyConditionIgnoredWithConditions(b: ConditionalBlock, env: Env, legacy: Option<Condition>)
    requires b.conditions.Some? && |b.conditions.value| > 0
    ensures BlockMatches(b.(condition := legacy), env) == BlockMatches(b, env)
  {
  }

  /** A condition block with neither `conditions` nor `condition` never matches. */
  lemma BareBlockNeverMatches(b: ConditionalBlock, env: Env)
    requires b.blockType != Else
    requires b.conditions.None? || |b.conditions.value| == 0
    requires b.condition.None?
    ensures !BlockMatches(b, env)
  {
  }

  /** Once a block matches, later blocks are never examined: appending
      blocks to a line whose scan already stops changes nothing, and
      appending to a line without a match shifts the later match. */
  lemma {:induction false} FirstMatchAppend(blocks: seq<ConditionalBlock>, more: seq<ConditionalBlock>, env: Env)
    ensures FirstMatch(blocks, env).Some? ==> FirstMatch(blocks + more, env) == FirstMatch(blocks, env)
    ensures FirstMatch(blocks, env).None? ==>
      FirstMatch(blocks + more, env) ==
        match FirstMatch(more, env) case None => None case Some(i) => Some(|blocks| + i)
  {
    if blocks == [] {
      assert blocks + more == more;
      match FirstMatch(more, env)
      case None =>
      case Some(i) =>
    } else {
      assert (blocks + more)[0] == blocks[0];
      if !BlockMatches(blocks[0], env) {
        assert (blocks + more)[1..] == blocks[1..] + more;
        FirstMatchAppend(blocks[1..], more, env);
        assert |blocks| == |blocks[1..]| + 1;
      }
    }
  }

  /** The scan returns the first matching block's parsed message and its
      style unchanged, and `null` for a missing or empty block list and for
      a line in which no block matches. */
  lemma LineResultSpec(line: ConditionalLine, env: Env, parse: string -> string)
    ensures LineResult(line, env, parse).None? <==>
      line.blocks.None? || forall j :: 0 <= j < |line.blocks.value| ==> !BlockMatches(line.blocks.value[j], env)
    ensures LineResult(line, env, parse).Some? ==>
      exists i :: (0 <= i < |line.blocks.value| && BlockMatches(line.blocks.value[i], env) &&
        (forall j :: 0 <= j < i ==> !BlockMatches(line.blocks.value[j], env)) &&
        LineResult(line, env, parse) == Some(ConditionalResult(parse(line.blocks.value[i].message), line.blocks.value[i].style)))
  {
    if line.blocks.Some? && |line.blocks.value| > 0 {
      var r := FirstMatch(line.blocks.value, env);
      if r.Some? {
        var i := r.value;
        assert 0 <= i < |line.blocks.value| && BlockMatches(line.blocks.value[i], env);
      }
    }
  }

  /** The rule `if x > 5 or y > 5 then "M1" else "M2"` yields "M1" for x = 10, y = 0
      and "M2" for x = 0, y = 0, when "5" parses as 5. */
  lemma OrElseExample(host: Host, formulas: seq<Formula>, evaluateFormula: string -> real, parse: string -> string)
    requires host.parseFloat("5") == Some(5.0)
    ensures var line := ConditionalLine(Some([
        ConditionalBlock(If, Some([
          Condition(Some("x"), Some(VariableTarget), None, "greater_than", Text("5")),
          Condition(Some("y"), Some(VariableTarget), None, "greater_than", Text("5"))]),
          None, Some(Or), "M1", None),
        ConditionalBlock(Else, None, None, None, "M2", None)]));
      LineResult(line, Env(map["x" := 10.0, "y" := 0.0], formulas, evaluateFormula, host), parse) ==
        Some(ConditionalResult(parse("M1"), None)) &&
      LineResult(line, Env(map["x" := 0.0, "y" := 0.0], formulas, evaluateFormula, host), parse) ==
        Some(ConditionalResult(parse("M2"), None))
  {
    var x := Condition(Some("x"), Some(VariableTarget), None, "greater_than", Text("5"));
    var y := Condition(Some("y"), Some(VariableTarget), None, "greater_than", Text("5"));
    var ifBlock := ConditionalBlock(If, Some([x, y]), None, Some(Or), "M1", None);
    var elseBlock := ConditionalBlock(Else, None, None, None, "M2", None);
    var hit := Env(map["x" := 10.0, "y" := 0.0], formulas, evaluateFormula, host);
    var miss := Env(map["x" := 0.0, "y" := 0.0], formulas, evaluateFormula, host);
    assert EvaluateCondition([x, y][0], hit);
    assert BlockMatches(ifBlock, hit);
    assert !EvaluateCondition(x, miss) && !EvaluateCondition(y, miss);
    assert !BlockMatches(ifBlock, miss);
    assert FirstMatch([ifBlock, elseBlock], miss) == Some(1);
  }

  /** `conditions.some(evaluateCondition)`: stops at the first condition
      that holds. */
  method SomeHolds(conditions: seq<Condition>, env: Env) returns (r: bool)
    ensures r == AnyHolds(conditions, env)
  {
    var i := 0;
    while i < |conditions|
      invariant 0 <= i <= |conditions|
      invariant forall j :: 0 <= j < i ==> !EvaluateCondition(conditions[j], env)
    {
      if EvaluateCondition(conditions[i], env) {
        return true;
      }
      i := i + 1;
    }
    return false;
  }

  /** `conditions.every(evaluateCondition)`: stops at the first condition
      that fails. */
  method EveryHolds(conditions: seq<Condition>, env: Env) returns (r: bool)
    ensures r == AllHold(conditions, env)
  {
    var i := 0;
    while i < |conditions|
      invariant 0 <= i <= |conditions|
      invariant forall j :: 0 <= j < i ==> EvaluateCondition(conditions[j], env)
    {
      if !EvaluateCondition(conditions[i], env) {
        return false;
      }
      i := i + 1;
    }
    return true;
  }

  /** Whether the block's conditions hold, computed as the hook does with
      its local `isMatch`. */
  method BlockIsMatch(block: ConditionalBlock, env: Env) returns (isMatch: bool)
    requires block.blockType != Else
    ensures isMatch == BlockMatches(block, env)
  {
    isMatch := false;
    if block.conditions.Some? && |block.conditions.value| > 0 {
      if block.logicalOperator == Some(Or) {
        isMatch := SomeHolds(block.conditions.value, env);
      } else {
        isMatch := EveryHolds(block.conditions.value, env);
      }
    } else if block.condition.Some? {
      isMatch := EvaluateCondition(block.condition.value, env);
    }
  }

  /** `evaluateConditionalLine(line, parseResultContent)`: a scan over the
      blocks that returns at the first `else` or matching block. */
  method EvaluateConditionalLine(line: ConditionalLine, env: Env, parse: string -> string)
    returns (r: Option<ConditionalResult>)
    ensures r == LineResult(line, env, parse)
  {
    if line.blocks.None? || |line.blocks.value| == 0 {
      return None;
    }
    var blocks := line.blocks.value;
    var i := 0;
    while i < |blocks|
      invariant 0 <= i <= |blocks|
      invariant forall j :: 0 <= j < i ==> !BlockMatches(blocks[j], env)
    {
      var block := blocks[i];
      if block.blockType == Else {
        return Some(ConditionalResult(parse(block.message), block.style));
      }
      var isMatch := BlockIsMatch(block, env);
      if isMatch {
        return Some(ConditionalResult(parse(block.message), block.style));
      }
      i := i + 1;
    }
    return None;
  }
}
