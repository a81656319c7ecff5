/** The calculator component: its state (the four input boxes and the error
    text) and the three handlers that update it. The rendering is not part of
    this model. */
module Calculator {
  import opened Form

  class CagrCalculator {
    var cagr: Slot
    var periods: Slot
    var initialValue: Slot
    var finalValue: Slot
    var error: string

    /** The numeric formulas the component computes with. */
    const formulas: Formulas

    /** The `values` record as one value. */
    function Snapshot(): Values
      reads this
    {
      Values(cagr, periods, initialValue, finalValue)
    }

    /** The component mounts with every box empty and no error. */
    constructor (formulas: Formulas)
      ensures Snapshot() == BLANK && error == ""
      ensures this.formulas == formulas
    {
      cagr, periods, initialValue, finalValue := Empty, Empty, Empty, Empty;
      error := "";
      this.formulas := formulas;
    }

    /** The change handler of the four inputs: the edited box takes the new
        text and, when it is one of the amounts, the other amount is emptied.
        The error text is not touched. */
    method HandleInputChange(name: Field, value: Slot)
      modifies this
      ensures Snapshot() == Edited(old(Snapshot()), name, value)
      ensures error == old(error)
    {
      match name {
        case Cagr => cagr := value;
        case Periods => periods := value;
        case InitialValue => initialValue := value;
        case FinalValue => finalValue := value;
      }
      if name == InitialValue {
        finalValue := Empty;
      }
      if name == FinalValue {
        initialValue := Empty;
      }
    }

    /** The Clear button: every box and the error text become empty, whatever
        they held. */
    method ClearCalculator()
      modifies this
      ensures Snapshot() == BLANK && error == ""
    {
      cagr, periods, initialValue, finalValue := Empty, Empty, Empty, Empty;
      error := "";
    }

    /** The Calculate button. The three checks run in order and the first one
        that fails sets its message and leaves every box as it was; when all
        pass, the missing amount (if any) is written and the error is cleared. */
    method CalculateValues()
      modifies this
      ensures Validate(old(Snapshot())) != Pass ==> Snapshot() == old(Snapshot())
      ensures Validate(old(Snapshot())) == Pass ==> Snapshot() == Completed(old(Snapshot()), formulas)
      ensures error == Message(Validate(old(Snapshot())))
    {
      if !cagr.Filled() || !periods.Filled() || (!initialValue.Filled() && !finalValue.Filled()) {
        error := MISSING_INPUT_MESSAGE;
        return;
      }
      if cagr.r <= -100.0 {
        error := CAGR_TOO_LOW_MESSAGE;
        return;
      }
      if periods.r <= 0.0 {
        error := PERIODS_NOT_POSITIVE_MESSAGE;
        return;
      }
      if initialValue.Filled() && !finalValue.Filled() {
        finalValue := Val(formulas.grow(initialValue.r, cagr.r, periods.r));
      } else if !initialValue.Filled() && finalValue.Filled() {
        initialValue := Val(formulas.shrink(finalValue.r, cagr.r, periods.r));
      }
      error := "";
    }
  }

  /** A short session driven through the handlers: type an initial value, a
      rate and a period count, calculate, then calculate again. */
  method SessionExample(f: Formulas) returns (shown: Values)
    ensures shown == Values(Val(10.0), Val(5.0), Val(1000.0), Val(f.grow(1000.0, 10.0, 5.0)))
  {
    var c := new CagrCalculator(f);
    c.HandleInputChange(InitialValue, Val(1000.0));
    c.HandleInputChange(Cagr, Val(10.0));
    c.HandleInputChange(Periods, Val(5.0));
    c.CalculateValues();
    assert c.error == "";
    c.CalculateValues();
    assert c.error == "";
    shown := c.Snapshot();
  }
}
