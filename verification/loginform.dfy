/**
 * The login form's controller: its field values, its error record and the
 * screen it shows. Submitting validates locally and navigates straight to
 * the landing screen; this form does not call the auth service.
 */
module LoginForm {
  import opened Violations
  import opened ValidationSchemas
  import opened Routes

  datatype State = State(formData: LoginRecord, errors: map<Field, string>, route: Route)

  /** `handleChange` for the input named `f`. Only the form's two inputs
      raise it. The field takes the new value and a truthy error on that
      field is blanked; everything else stays. */
  function HandleChange(s: State, f: Field, value: string): (t: State)
    requires f in LoginFields
    ensures t.formData.Get(f) == value
    ensures forall g :: g in LoginFields && g != f ==> t.formData.Get(g) == s.formData.Get(g)
    ensures f in t.errors <==> f in s.errors
    ensures f in t.errors ==> t.errors[f] == ""
    ensures forall g :: g != f ==> (g in t.errors <==> g in s.errors)
    ensures forall g :: g != f && g in s.errors ==> t.errors[g] == s.errors[g]
    ensures !HasError(s.errors, f) ==> t.errors == s.errors
    ensures t.route == s.route
  {
    var errors := if HasError(s.errors, f) then s.errors[f := ""] else s.errors;
    s.(formData := s.formData.With(f, value), errors := errors)
  }

  /** `handleSubmit`. When every rule holds the form navigates to the
      landing screen and keeps its error record; otherwise the error record
      is replaced by the validation record, so no entry from an earlier
      submit survives. */
  function HandleSubmit(s: State): (t: State)
    ensures t.formData == s.formData
    ensures LoginValid(s.formData) ==> t.route == HeroPage && t.errors == s.errors
    ensures !LoginValid(s.formData) ==> t.route == s.route && t.errors == ValidateLogin(s.formData)
  {
    var violations := LoginViolations(s.formData);
    LoginValidIffNoViolations(s.formData);
    if violations == [] then s.(route := HeroPage)
    else s.(errors := ValidateLogin(s.formData))
  }

  /** Editing a field after a failed submit blanks that field's message and
      leaves the other field's message as the submit reported it. */
  lemma EditAfterFailedSubmit(s: State, f: Field, value: string)
    requires f in LoginFields
    requires !LoginValid(s.formData)
    ensures var t := HandleChange(HandleSubmit(s), f, value);
            forall g :: g in LoginFields && g != f ==>
              (g in t.errors <==> g in ValidateLogin(s.formData))
              && (g in t.errors ==> t.errors[g] == ValidateLogin(s.formData)[g])
  {
  }
}
