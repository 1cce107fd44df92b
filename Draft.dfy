/** The sign-up form's `formData`, its update in `handleChange`, and the two
    password checks at the top of `handleSubmit` (src/pages/Register.jsx). */
module FormDraft {

  /** The four named inputs of the form; each one calls `handleChange` with its
      own `name` attribute. */
  datatype Field = DisplayName | Email | Password | ConfirmPassword

  /** The user-entered values. Every field is always a string. */
  datatype Draft = Draft(displayName: string, email: string, password: string, confirmPassword: string)

  /** The draft the component starts with: every field empty. */
  const EmptyDraft: Draft := Draft("", "", "", "")

  /** Reads the field an input is bound to. */
  function Get(d: Draft, f: Field): string
  {
    match f
    case DisplayName => d.displayName
    case Email => d.email
    case Password => d.password
    case ConfirmPassword => d.confirmPassword
  }

  /** `handleChange`: a new draft in which the one named field holds the new
      value and every other field is the old draft's. */
  function WithField(d: Draft, f: Field, value: string): (r: Draft)
    ensures Get(r, f) == value
    ensures forall g :: g != f ==> Get(r, g) == Get(d, g)
  {
    match f
    case DisplayName => d.(displayName := value)
    case Email => d.(email := value)
    case Password => d.(password := value)
    case ConfirmPassword => d.(confirmPassword := value)
  }

  const MinPasswordLength: nat := 6
  const MismatchReason: string := "Passwords do not match"
  const TooShortReason: string := "Password must be at least 6 characters"

  datatype Validation = Valid | Invalid(reason: string)

  /** Reference definition of the local rules: the reasons of every rule the
      draft breaks, in the order the rules are listed. Only the two password
      fields are looked at. */
  function Violations(d: Draft): (v: seq<string>)
  {
    (if d.password != d.confirmPassword then [MismatchReason] else [])
    + (if |d.password| < MinPasswordLength then [TooShortReason] else [])
  }

  /** The checks at the top of `handleSubmit`: the two rules are checked in
      order and the first one that fails decides the result. */
  function Validate(d: Draft): (r: Validation)
    ensures r == (if Violations(d) == [] then Valid else Invalid(Violations(d)[0]))
    ensures d.password != d.confirmPassword ==> r == Invalid(MismatchReason)
    ensures d.password == d.confirmPassword && |d.password| < MinPasswordLength ==> r == Invalid(TooShortReason)
    ensures r == Valid <==> d.password == d.confirmPassword && |d.password| >= MinPasswordLength
  {
    if d.password != d.confirmPassword then Invalid(MismatchReason)
    else if |d.password| < MinPasswordLength then Invalid(TooShortReason)
    else Valid
  }

  /** A draft that breaks both rules has both reasons on record, yet the
      check reports only the mismatch, because it is checked first. */
  lemma MismatchWinsOverLength(d: Draft)
    requires d.password != d.confirmPassword && |d.password| < MinPasswordLength
    ensures Violations(d) == [MismatchReason, TooShortReason]
    ensures Validate(d) == Invalid(MismatchReason)
  {
  }

  /** Editing a field other than the two password fields never changes what
      `Validate` says. */
  lemma ValidateIgnoresOtherFields(d: Draft, f: Field, value: string)
    requires f == DisplayName || f == Email
    ensures Validate(WithField(d, f, value)) == Validate(d)
  {
  }
}
