/** The widget's variable state (widget/src/components/CalculatorWidget.tsx):
    one number per variable name, changed only through `updateVariable`. */
module WidgetState {
  /** The `variableValues` state of the widget. */
  class VariableStore {
    var values: map<string, real>

    constructor(values: map<string, real>)
      ensures this.values == values
    {
      this.values := values;
    }

    /** `updateVariable(name, value)`: `{ ...prev, [name]: value }`, a
        single-key overwrite that keeps every other variable. */
    method UpdateVariable(name: string, value: real)
      modifies this
      ensures values == old(values)[name := value]
      ensures forall k :: k in old(values) && k != name ==> k in values && values[k] == old(values)[k]
    {
      values := values[name := value];
    }
  }
}
