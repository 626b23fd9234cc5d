/**
 * The signup form's controller. Besides the field values and the error
 * record it has a busy flag that disables the submit button, and the
 * pending timer that stands in for the registration call: this form does
 * not call the auth service.
 */
module SignUpForm {
  import opened Violations
  import opened ValidationSchemas
  import opened Routes

  /** `timerArmed` records that the submit's timer callback is scheduled and
      has not run yet. */
  datatype State = State(
    formData: SignupRecord, errors: map<Field, string>, isLoading: bool,
    timerArmed: bool, route: Route)

  /** The form as first shown. */
  function Init(): State
  {
    State(SignupRecord("", "", "", "", "", ""), map[], false, false, SignUpPage)
  }

  /** `handleChange` for the input named `f`: the field takes the new value
      and a truthy error on that field is blanked; everything else stays. */
  function HandleChange(s: State, f: Field, value: string): (t: State)
    ensures t.formData.Get(f) == value
    ensures forall g :: g != f ==> t.formData.Get(g) == s.formData.Get(g)
    ensures f in t.errors <==> f in s.errors
    ensures f in t.errors ==> t.errors[f] == ""
    ensures forall g :: g != f ==> (g in t.errors <==> g in s.errors)
    ensures forall g :: g != f && g in s.errors ==> t.errors[g] == s.errors[g]
    ensures !HasError(s.errors, f) ==> t.errors == s.errors
    ensures t.isLoading == s.isLoading && t.timerArmed == s.timerArmed && t.route == s.route
  {
    var errors := if HasError(s.errors, f) then s.errors[f := ""] else s.errors;
    s.(formData := s.formData.With(f, value), errors := errors)
  }

  /** The synchronous start of `handleSubmit`: busy, and no errors shown. */
  function BeginSubmit(s: State): (t: State)
    ensures t.isLoading && t.errors == map[]
    ensures t.formData == s.formData && t.route == s.route && t.timerArmed == s.timerArmed
  {
    s.(isLoading := true, errors := map[])
  }

  /** The rest of `handleSubmit`, once validation has settled: a valid
      record arms the timer and stays busy; an invalid one shows the
      validation record and is no longer busy. */
  function ValidationSettled(s: State, isEmail: string -> bool): State
  {
    var violations := SignupViolations(s.formData, isEmail);
    if violations == [] then s.(timerArmed := true)
    else s.(errors := ErrorMap(violations), isLoading := false)
  }

  /** A submit event. While busy the submit button is disabled, so the
      event does not reach `handleSubmit` and nothing changes. */
  function HandleSubmit(s: State, isEmail: string -> bool): (t: State)
    ensures s.isLoading ==> t == s
    ensures t.formData == s.formData && t.route == s.route
    ensures !s.isLoading && SignupValid(s.formData, isEmail)
            ==> t.isLoading && t.timerArmed && t.errors == map[]
    ensures !s.isLoading && !SignupValid(s.formData, isEmail)
            ==> !t.isLoading && t.timerArmed == s.timerArmed && t.errors == ValidateSignup(s.formData, isEmail)
  {
    SignupValidIffNoViolations(s.formData, isEmail);
    if s.isLoading then s else ValidationSettled(BeginSubmit(s), isEmail)
  }

  /** The timer callback: navigate to the root screen and stop being busy. */
  function TimerFires(s: State): (t: State)
    ensures s.timerArmed ==> t.route == Root && !t.isLoading && !t.timerArmed
    ensures s.timerArmed ==> t.formData == s.formData && t.errors == s.errors
    ensures !s.timerArmed ==> t == s
  {
    if s.timerArmed then s.(route := Root, isLoading := false, timerArmed := false) else s
  }

  /** The events the form reacts to. */
  datatype Event = Edit(field: Field, value: string) | Submit | TimerElapsed

  function Step(s: State, e: Event, isEmail: string -> bool): State
  {
    match e
    case Edit(f, v) => HandleChange(s, f, v)
    case Submit => HandleSubmit(s, isEmail)
    case TimerElapsed => TimerFires(s)
  }

  function Run(s: State, events: seq<Event>, isEmail: string -> bool): State
    decreases |events|
  {
    if events == [] then s else Run(Step(s, events[0], isEmail), events[1..], isEmail)
  }

  /** Between events the form is busy exactly while its timer is pending. */
  predicate Consistent(s: State)
  {
    s.isLoading == s.timerArmed
  }

  /** Every sequence of events keeps the form consistent. In particular, a
      submit made while a timer is pending changes nothing, so at most one
      timer is ever pending. */
  lemma {:induction false} RunKeepsConsistent(s: State, events: seq<Event>, isEmail: string -> bool)
    requires Consistent(s)
    ensures Consistent(Run(s, events, isEmail))
    decreases |events|
  {
    if events != [] {
      var next := Step(s, events[0], isEmail);
      assert Consistent(next);
      RunKeepsConsistent(next, events[1..], isEmail);
    }
  }

  /** The form as first shown is consistent, and stays so. */
  lemma RunFromInitKeepsConsistent(events: seq<Event>, isEmail: string -> bool)
    ensures Consistent(Init())
    ensures Consistent(Run(Init(), events, isEmail))
  {
    RunKeepsConsistent(Init(), events, isEmail);
  }

  /** A valid submit from an idle form, followed by the timer, ends on the
      root screen and idle, with no errors shown. */
  lemma ValidSubmitNavigates(s: State, isEmail: string -> bool)
    requires !s.isLoading && SignupValid(s.formData, isEmail)
    ensures var t := Run(s, [Submit, TimerElapsed], isEmail);
            t.route == Root && !t.isLoading && !t.timerArmed && t.errors == map[]
  {
    assert [Submit, TimerElapsed][1..] == [TimerElapsed];
  }
}
