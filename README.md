# CAGR calculator form, modelled in Dafny

The repository is a single-page CAGR (compound annual growth rate) calculator.
Its only logic lives in the `CAGRCalculator` component: a record of four input
boxes (`cagr`, `periods`, `initialValue`, `finalValue`) plus an error text, and
three handlers:

- the change handler writes the edited box and, when the edited box is one of
  the two amounts, empties the other amount;
- Clear empties all four boxes and the error text;
- Calculate runs three checks in order (all needed inputs present, CAGR above
  -100 %, periods above zero), shows the first failing check's message and
  stops, or else computes the missing amount (final from initial, or initial
  from final, or nothing when both are filled) and clears the error.

The model keeps that control flow and state exactly and leaves the arithmetic
abstract.

- `form.dfy`, module `Form`. The values record, the slot type, the messages and
  the pure rules the handlers apply. A slot is `Empty | Val(r)`. The inputs are
  `type="number"` boxes, and the source's presence test is JavaScript
  truthiness on their text, so a box holding `0` is filled and stays distinct
  from an empty one. The two formulas (grow the initial value, shrink the final
  value, each rounded to two decimals) are a `Formulas` value of two functions
  given to the calculator.
- `calculator.dfy`, module `Calculator`. The component as a class with the five
  state fields and the three handlers as methods. Each method is proved against
  the functions of `Form`.
- `session.dfy`, module `Session`. A session as a sequence of events (edit,
  Clear, Calculate) and properties over any such sequence: the error text is
  always one of the three messages or empty; Clear forgets everything before
  it; and, while the amount inputs are disabled as the page disables them, two
  filled amounts stay exactly as they are until Clear. That last property means
  that after a successful calculation, changing the rate to another value above
  -100 % and pressing Calculate again clears the error but does not recompute
  anything.

The component has one error text, the three ordered checks above and a
two-amount mode only: it derives neither the rate nor the period count from
the other inputs.

## Model

| member | source | states |
|---|---|---|
| `Form.Edited` | src/components/CAGRCalculator.jsx:45-53 | the edited box holds the new text; cagr and periods change only when they are the edited box; editing one amount empties the other; editing cagr or periods leaves both amounts alone; after an amount edit at most one amount is filled |
| `Form.Validate` | src/components/CAGRCalculator.jsx:16-29 | the verdict is "missing input" exactly when cagr, periods or both amounts are empty; "CAGR too low" exactly when present and cagr <= -100; "periods not positive" exactly when present, cagr > -100 and periods <= 0; it passes exactly when all three inputs are present, cagr > -100 and periods > 0 |
| `Form.Message` | src/components/CAGRCalculator.jsx:16-29 | the error text is empty exactly when the checks passed |
| `Form.MessageIsInjective` | src/components/CAGRCalculator.jsx:16-29 | the three messages are distinct from each other and from the empty text |
| `Form.ValidateBoundaries` | src/components/CAGRCalculator.jsx:16-29 | cagr = -100 is rejected and -99.999 accepted; periods = 0 is a range error (not missing input) and 0.0001 is accepted; a cagr of 0 is present |
| `Form.Completed` | src/components/CAGRCalculator.jsx:31-39 | cagr, periods and any supplied amount are kept; a missing final value becomes grow(initial, cagr, periods); a missing initial value becomes shrink(final, cagr, periods); afterwards both amounts are filled |
| `Form.CompletedIsFixpoint` | src/components/CAGRCalculator.jsx:32-39 | a completed record passes the checks again and completing it again writes nothing |
| `Calculator.CagrCalculator.constructor` | src/components/CAGRCalculator.jsx:5-11 | the component starts with four empty boxes and no error |
| `Calculator.CagrCalculator.HandleInputChange` | src/components/CAGRCalculator.jsx:45-53 | the new record is `Edited` of the old one; the error text is unchanged |
| `Calculator.CagrCalculator.ClearCalculator` | src/components/CAGRCalculator.jsx:55-63 | all four boxes and the error become empty, whatever the prior state |
| `Calculator.CagrCalculator.CalculateValues` | src/components/CAGRCalculator.jsx:13-43 | a failed check leaves every box unchanged; a pass replaces the record by `Completed`; the error becomes the message of the first failing check, or empty |
| `Calculator.SessionExample` | src/components/CAGRCalculator.jsx:13-53 | typing initial 1000, cagr 10 and periods 5, then calculating twice, shows those inputs with final value grow(1000, 10, 5) |
| `Session.ErrorsAreKnown` | src/components/CAGRCalculator.jsx:11-63 | along any sequence of edits, clears and calculations the error text stays one of the three messages or empty |
| `Session.ClearForgetsHistory` | src/components/CAGRCalculator.jsx:55-63 | whatever happened before a Clear, the events after it act as on a freshly mounted calculator |
| `Session.BothAmountsStayUntilClear` | src/components/CAGRCalculator.jsx:110-131 | with the amount inputs disabled while the other amount is filled, two filled amounts keep their values through any events other than Clear |
| `Session.OnlyCalculateCompletes` | src/components/CAGRCalculator.jsx:13-53 | a step that makes both amounts filled is a Calculate whose checks passed, and it leaves the error empty |
| `Session.SecondCalculateIsNoOp` | src/components/CAGRCalculator.jsx:13-43 | from any state, a second Calculate right after a first changes neither a box nor the error |
| `Session.Drive` | src/components/CAGRCalculator.jsx:13-63 | feeding a sequence of events to the component's handlers leaves it in the state that `Run` gives for that sequence, so the session lemmas hold of the class |

## Left out

- Floating point: `parseFloat`, `Math.pow` and `toFixed(2)` are not modelled. Both formulas are parameters (`Formulas.grow`, `Formulas.shrink`), so nothing is proved about rounding, accuracy or the initial-to-final round trip. `Infinity` or `NaN` text that an overflowing formula could write is not modelled either.
- The `try/catch` around the formulas and its "Calculation error" message: `Math.pow` and the arithmetic do not throw, so that branch cannot be taken. No computation-error path is modelled.
- The Reset button runs Clear and then Calculate within one React event. Its outcome depends on React batching state updates and on Calculate reading the values captured before Clear. That framework behaviour is outside the model.
- The `disabled` attributes of the two amount inputs are page behaviour. They appear only as the `Session.Enabled` condition on edit events.
- Rendering, styling and icons of the component; the layout with its menu toggle, the home page and the router in `src/components/Layout.jsx`, `src/components/HomePage.jsx` and `src/App.jsx` are page chrome with no logic to model.
- Input text that a number box would not produce is not modelled. A slot is either empty or a number.
