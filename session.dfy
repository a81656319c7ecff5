/** A session with the calculator as a sequence of user events, each one the
    effect of one handler of the component, and the properties that hold
    along any such sequence. */
module Session {
  import opened Form
  import opened Calculator

  /** Everything the component keeps: the values record and the error text. */
  datatype State = State(values: Values, error: string)

  const INITIAL := State(BLANK, "")

  /** A keystroke in one input box, or a press of Clear or Calculate. */
  datatype Event = Edit(name: Field, value: Slot) | Clear | Calculate

  /** The state after one event; each case is what the matching handler of
      `Calculator.CagrCalculator` ensures. */
  function Step(s: State, e: Event, f: Formulas): State {
    match e
    case Edit(name, value) => State(Edited(s.values, name, value), s.error)
    case Clear => INITIAL
    case Calculate => State(Calculated(s.values, f), Message(Validate(s.values)))
  }

  /** The state after a sequence of events, taken in order. */
  function Run(s: State, es: seq<Event>, f: Formulas): State
    decreases |es|
  {
    if es == [] then s else Run(Step(s, es[0], f), es[1..], f)
  }

  lemma {:induction false} RunConcat(s: State, a: seq<Event>, b: seq<Event>, f: Formulas)
    ensures Run(s, a + b, f) == Run(Run(s, a, f), b, f)
    decreases |a|
  {
    if a != [] {
      assert (a + b)[0] == a[0];
      assert (a + b)[1..] == a[1..] + b;
      RunConcat(Step(s, a[0], f), a[1..], b, f);
    } else {
      assert a + b == b;
    }
  }

  /** The error text is one of the handler's messages (the empty one included). */
  ghost predicate KnownError(s: State) {
    exists verdict: Verdict :: s.error == Message(verdict)
  }

  /** Whatever the user does, the form never shows any error text other than
      the three messages of Calculate, or none. */
  lemma {:induction false} ErrorsAreKnown(s: State, es: seq<Event>, f: Formulas)
    requires KnownError(s)
    ensures KnownError(Run(s, es, f))
    decreases |es|
  {
    if es != [] {
      var t := Step(s, es[0], f);
      match es[0] {
        case Edit(_, _) =>
        case Clear =>
          assert t.error == Message(Pass);
        case Calculate =>
          assert t.error == Message(Validate(s.values));
      }
      ErrorsAreKnown(t, es[1..], f);
    }
  }

  /** Clear leaves nothing behind: what follows it behaves as on a freshly
      mounted calculator, whatever came before. */
  lemma ClearForgetsHistory(s: State, before: seq<Event>, after: seq<Event>, f: Formulas)
    ensures Run(s, before + [Clear] + after, f) == Run(INITIAL, after, f)
  {
    RunConcat(s, before + [Clear], after, f);
    RunConcat(s, before, [Clear], f);
  }

  /** The inputs' `disabled` attributes: an amount box accepts typing only
      while the other amount is empty. */
  predicate Enabled(s: State, e: Event) {
    match e
    case Edit(InitialValue, _) => !s.values.finalValue.Filled()
    case Edit(FinalValue, _) => !s.values.initialValue.Filled()
    case _ => true
  }

  /** Every event of the sequence is enabled in the state it meets. */
  predicate Disciplined(s: State, es: seq<Event>, f: Formulas)
    decreases |es|
  {
    es == [] || (Enabled(s, es[0]) && Disciplined(Step(s, es[0], f), es[1..], f))
  }

  /** Once both amounts are filled, the disabled inputs and Calculate keep
      them exactly as they are until the user presses Clear. */
  lemma {:induction false} BothAmountsStayUntilClear(s: State, es: seq<Event>, f: Formulas)
    requires s.values.initialValue.Filled() && s.values.finalValue.Filled()
    requires Disciplined(s, es, f)
    requires Clear !in es
    ensures Run(s, es, f).values.initialValue == s.values.initialValue
    ensures Run(s, es, f).values.finalValue == s.values.finalValue
    decreases |es|
  {
    if es != [] {
      assert es[0] in es;
      var t := Step(s, es[0], f);
      assert t.values.initialValue == s.values.initialValue;
      assert t.values.finalValue == s.values.finalValue;
      assert forall e :: e in es[1..] ==> e in es;
      BothAmountsStayUntilClear(t, es[1..], f);
    }
  }

  /** Both amounts become filled only through a Calculate whose checks passed,
      and that Calculate clears the error. */
  lemma OnlyCalculateCompletes(s: State, e: Event, f: Formulas)
    requires !(s.values.initialValue.Filled() && s.values.finalValue.Filled())
    requires Step(s, e, f).values.initialValue.Filled() && Step(s, e, f).values.finalValue.Filled()
    ensures e == Calculate && Validate(s.values) == Pass
    ensures Step(s, e, f).error == ""
  {
  }

  /** Pressing Calculate twice in a row is the same as pressing it once, from
      any state: after a pass nothing is left to fill, and after a failure the
      same check fails again with the same message. */
  lemma SecondCalculateIsNoOp(s: State, f: Formulas)
    ensures Step(Step(s, Calculate, f), Calculate, f) == Step(s, Calculate, f)
  {
  }

  /** Feeds the events one by one to the component's handlers; the component
      ends in the state `Run` gives, so every lemma above about `Run` holds of
      the class as well. */
  method Drive(c: CagrCalculator, es: seq<Event>)
    modifies c
    ensures State(c.Snapshot(), c.error) == Run(old(State(c.Snapshot(), c.error)), es, c.formulas)
  {
    ghost var s0 := State(c.Snapshot(), c.error);
    var i := 0;
    while i < |es|
      invariant 0 <= i <= |es|
      invariant Run(s0, es, c.formulas) == Run(State(c.Snapshot(), c.error), es[i..], c.formulas)
    {
      match es[i] {
        case Edit(name, value) => c.HandleInputChange(name, value);
        case Clear => c.ClearCalculator();
        case Calculate => c.CalculateValues();
      }
      i := i + 1;
    }
  }
}
