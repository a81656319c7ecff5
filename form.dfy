/** The values record of the CAGR calculator and the rules its three handlers
    apply to it: editing one input, validating the inputs before a calculation,
    and filling in the missing value field.

    The floating-point formulas (`parseFloat`, `Math.pow`, `toFixed(2)`) are not
    modelled: a calculation is given its two formulas as a `Formulas` value, and
    every statement here is about which slot is written, which is kept and which
    error the form shows. */
module Form {

  /** One input box. The boxes are `type="number"`, so their text is either
      empty or a number. JavaScript's truthiness on that text is "non-empty",
      so `Val(0.0)` counts as filled: it is not the same as `Empty`. */
  datatype Slot = Empty | Val(r: real) {
    predicate Filled() { Val? }
  }

  /** The `name` attribute of the four inputs. */
  datatype Field = Cagr | Periods | InitialValue | FinalValue

  /** The `values` record: a growth rate in percent, a number of periods, and
      the initial and final amounts. */
  datatype Values = Values(cagr: Slot, periods: Slot, initialValue: Slot, finalValue: Slot) {
    function Get(name: Field): Slot {
      match name
      case Cagr => cagr
      case Periods => periods
      case InitialValue => initialValue
      case FinalValue => finalValue
    }
  }

  /** All four boxes empty: the record the component starts with and the one
      Clear restores. */
  const BLANK := Values(Empty, Empty, Empty, Empty)

  /** The two closed-form computations, each taking (known amount, CAGR,
      periods) and giving the other amount as it reads back from the text
      written into its box. `grow` stands for the initial value times
      (1 + cagr/100)^periods rounded to two decimals, `shrink` for the final
      value divided by the same power, rounded the same way. */
  datatype Formulas = Formulas(grow: (real, real, real) -> real, shrink: (real, real, real) -> real)

  /** The outcome of the three checks Calculate runs, in the order it runs them. */
  datatype Verdict = Pass | MissingInput | CagrTooLow | PeriodsNotPositive

  const MISSING_INPUT_MESSAGE := "Please fill in CAGR, periods, and either initial or final value"
  const CAGR_TOO_LOW_MESSAGE := "CAGR must be greater than -100%"
  const PERIODS_NOT_POSITIVE_MESSAGE := "Number of periods must be greater than zero"

  /** The error text the form shows after a calculation with this verdict; the
      empty text is "no error". */
  function Message(verdict: Verdict): (msg: string)
    ensures msg == "" <==> verdict == Pass
  {
    match verdict
    case Pass => ""
    case MissingInput => MISSING_INPUT_MESSAGE
    case CagrTooLow => CAGR_TOO_LOW_MESSAGE
    case PeriodsNotPositive => PERIODS_NOT_POSITIVE_MESSAGE
  }

  /** Different verdicts show different texts, so the error text tells which
      check stopped the calculation. */
  lemma MessageIsInjective(a: Verdict, b: Verdict)
    requires Message(a) == Message(b)
    ensures a == b
  {
  }

  /** The record after the user types `value` into the box called `name`. */
  function Edited(v: Values, name: Field, value: Slot): (w: Values)
    // the edited box holds the new text
    ensures w.Get(name) == value
    // the rate and the periods change only when they are the edited box
    ensures name != Cagr ==> w.cagr == v.cagr
    ensures name != Periods ==> w.periods == v.periods
    // typing one amount empties the other one
    ensures name == InitialValue ==> w.finalValue == Empty
    ensures name == FinalValue ==> w.initialValue == Empty
    // typing the rate or the periods leaves both amounts alone
    ensures name == Cagr || name == Periods ==>
      w.initialValue == v.initialValue && w.finalValue == v.finalValue
    // after typing an amount, at most one amount is filled
    ensures name == InitialValue || name == FinalValue ==>
      !(w.initialValue.Filled() && w.finalValue.Filled())
  {
    match name
    case Cagr => v.(cagr := value)
    case Periods => v.(periods := value)
    case InitialValue => v.(initialValue := value, finalValue := Empty)
    case FinalValue => v.(finalValue := value, initialValue := Empty)
  }

  /** The presence test: the rate, the periods and at least one amount. */
  predicate Present(v: Values) {
    v.cagr.Filled() && v.periods.Filled() && (v.initialValue.Filled() || v.finalValue.Filled())
  }

  /** The checks Calculate runs before computing anything, first failure wins. */
  function Validate(v: Values): (verdict: Verdict)
    // the presence test comes first and decides alone
    ensures verdict == MissingInput <==> !Present(v)
    // then the rate must exceed -100 percent
    ensures verdict == CagrTooLow <==> Present(v) && v.cagr.r <= -100.0
    // then the periods must be positive; a failing rate hides a failing period count
    ensures verdict == PeriodsNotPositive <==> Present(v) && v.cagr.r > -100.0 && v.periods.r <= 0.0
    // so a calculation goes ahead exactly when all are present, cagr > -100 and periods > 0
    ensures verdict == Pass <==> Present(v) && v.cagr.r > -100.0 && v.periods.r > 0.0
  {
    if !Present(v) then MissingInput
    else if v.cagr.r <= -100.0 then CagrTooLow
    else if v.periods.r <= 0.0 then PeriodsNotPositive
    else Pass
  }

  /** Where the checks draw their lines: exactly -100 percent and zero periods
      are rejected, values just inside are accepted, and a box holding 0 is
      filled, so zero periods is a range error rather than missing input. */
  lemma ValidateBoundaries(iv: real)
    ensures Validate(Values(Val(-100.0), Val(5.0), Val(iv), Empty)) == CagrTooLow
    ensures Validate(Values(Val(-99.999), Val(5.0), Val(iv), Empty)) == Pass
    ensures Validate(Values(Val(10.0), Val(0.0), Val(iv), Empty)) == PeriodsNotPositive
    ensures Validate(Values(Val(10.0), Val(0.0001), Val(iv), Empty)) == Pass
    ensures Validate(Values(Val(0.0), Val(5.0), Empty, Val(iv))) == Pass
    ensures Validate(Values(Val(-200.0), Val(-1.0), Empty, Empty)) == MissingInput
  {
  }

  /** The record after a calculation whose checks passed: the missing amount
      is computed from the other one, or nothing is written when both are
      already there. */
  function Completed(v: Values, f: Formulas): (w: Values)
    requires Validate(v) == Pass
    // the rate and the periods are never written
    ensures w.cagr == v.cagr && w.periods == v.periods
    // an amount the user supplied is kept
    ensures v.initialValue.Filled() ==> w.initialValue == v.initialValue
    ensures v.finalValue.Filled() ==> w.finalValue == v.finalValue
    // a missing final value is grown from the initial one
    ensures !v.finalValue.Filled() ==>
      w.finalValue == Val(f.grow(v.initialValue.r, v.cagr.r, v.periods.r))
    // a missing initial value is shrunk from the final one
    ensures !v.initialValue.Filled() ==>
      w.initialValue == Val(f.shrink(v.finalValue.r, v.cagr.r, v.periods.r))
    // afterwards both amounts are filled
    ensures w.initialValue.Filled() && w.finalValue.Filled()
  {
    if v.initialValue.Filled() && !v.finalValue.Filled() then
      v.(finalValue := Val(f.grow(v.initialValue.r, v.cagr.r, v.periods.r)))
    else if !v.initialValue.Filled() && v.finalValue.Filled() then
      v.(initialValue := Val(f.shrink(v.finalValue.r, v.cagr.r, v.periods.r)))
    else
      v
  }

  /** The values after pressing Calculate, whatever the verdict: a rejected
      calculation leaves the record as it was. */
  function Calculated(v: Values, f: Formulas): Values {
    if Validate(v) == Pass then Completed(v, f) else v
  }

  /** A completed record passes the checks again and completing it once more
      writes nothing: a second Calculate after a successful one changes no box. */
  lemma CompletedIsFixpoint(v: Values, f: Formulas)
    requires Validate(v) == Pass
    ensures Validate(Completed(v, f)) == Pass
    ensures Completed(Completed(v, f), f) == Completed(v, f)
  {
  }
}
