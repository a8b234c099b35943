/** The registration screen (src/screens/RegisterScreen.tsx): form validation, the
    normalised payload, and how a submission ends. */
module Register {
  import opened Wrappers
  import opened Text

  /** The four text fields of the form. */
  datatype Form = Form(name: string, email: string, password: string, confirmPassword: string)

  /** `RegisterPayload` */
  datatype RegisterPayload = RegisterPayload(name: string, email: string, password: string)

  const PasswordTooShort := "Hasło musi mieć min. 8 znaków"
  const PasswordNeedsLetter := "Hasło musi zawierać literę"
  const PasswordNeedsDigit := "Hasło musi zawierać cyfrę"
  const NameMissing := "Podaj imię"
  const EmailInvalid := "Niepoprawny email"
  const PasswordsDiffer := "Hasła nie są takie same"
  const MinPasswordLength := 8

  /** `/[A-Za-z]/.test(s)` */
  predicate HasLetter(s: string) {
    exists i :: 0 <= i < |s| && ('A' <= s[i] <= 'Z' || 'a' <= s[i] <= 'z')
  }

  /** `/[0-9]/.test(s)` */
  predicate HasDigit(s: string) {
    exists i :: 0 <= i < |s| && IsDigit(s[i])
  }

  /** `validatePassword(value)`: the first rule the password breaks, in the order length,
      letter, digit. */
  function ValidatePassword(value: string): (e: Option<string>)
    ensures e.None? <==> |value| >= MinPasswordLength && HasLetter(value) && HasDigit(value)
    ensures e == Some(PasswordTooShort) <==> |value| < MinPasswordLength
    ensures e == Some(PasswordNeedsLetter) <==> |value| >= MinPasswordLength && !HasLetter(value)
    ensures e == Some(PasswordNeedsDigit) <==>
              |value| >= MinPasswordLength && HasLetter(value) && !HasDigit(value)
  {
    if |value| < MinPasswordLength then Some(PasswordTooShort)
    else if !HasLetter(value) then Some(PasswordNeedsLetter)
    else if !HasDigit(value) then Some(PasswordNeedsDigit)
    else None
  }

  /** `validate()`: the error it sets, `None` when the form is accepted. */
  function Validate(form: Form): (e: Option<string>)
    ensures e.None? <==>
              && Trim(form.name) != ""
              && Includes(form.email, '@')
              && ValidatePassword(form.password).None?
              && form.password == form.confirmPassword
    ensures e == Some(NameMissing) <==> Trim(form.name) == ""
    ensures e == Some(EmailInvalid) <==> Trim(form.name) != "" && !Includes(form.email, '@')
    ensures (Trim(form.name) != "" && Includes(form.email, '@') &&
             ValidatePassword(form.password).Some?) ==> e == ValidatePassword(form.password)
    ensures (Trim(form.name) != "" && Includes(form.email, '@') &&
             ValidatePassword(form.password).None? && form.password != form.confirmPassword) ==>
              e == Some(PasswordsDiffer)
    ensures e == Some(PasswordsDiffer) ==> ValidatePassword(form.password).None?
  {
    if Trim(form.name) == "" then Some(NameMissing)
    else if !Includes(form.email, '@') then Some(EmailInvalid)
    else if ValidatePassword(form.password).Some? then ValidatePassword(form.password)
    else if form.password != form.confirmPassword then Some(PasswordsDiffer)
    else None
  }

  /** The payload built from an accepted form: trimmed name, trimmed lower-cased email,
      the password as typed. */
  function Payload(form: Form): (p: RegisterPayload)
    ensures p.name == Trim(form.name) && p.email == ToLower(Trim(form.email))
    ensures p.password == form.password
  {
    RegisterPayload(Trim(form.name), ToLower(Trim(form.email)), form.password)
  }

  lemma TrimmedIsFixed(s: string)
    requires s == [] || (!IsJsWhiteSpace(s[0]) && !IsJsWhiteSpace(s[|s| - 1]))
    ensures Trim(s) == s
  {
  }

  /** Lower-casing keeps a trimmed string trimmed, and lower-casing twice changes nothing. */
  lemma LowerOfTrimmed(t: string)
    requires t == [] || (!IsJsWhiteSpace(t[0]) && !IsJsWhiteSpace(t[|t| - 1]))
    ensures Trim(ToLower(t)) == ToLower(t)
    ensures ToLower(ToLower(t)) == ToLower(t)
  {
    var l := ToLower(t);
    if l != [] {
      assert l[0] == AsciiLower(t[0]);
      assert l[|l| - 1] == AsciiLower(t[|t| - 1]);
    }
    TrimmedIsFixed(l);
  }

  /** Normalising is idempotent: a payload fed back through the form comes out unchanged. */
  lemma PayloadNormalised(form: Form)
    ensures var p := Payload(form);
            Payload(Form(p.name, p.email, p.password, p.password)) == p
  {
    TrimIdempotent(form.name);
    TrimIsCore(form.email);
    LowerOfTrimmed(Trim(form.email));
  }

  /** How a submission ends. The auth context has no `register`, so the call after the
      mock delay throws and every accepted form ends in the failure alert. */
  datatype SubmitOutcome =
    | Rejected(error: string)               // validation failed; nothing was sent
    | FailureAlert(payload: RegisterPayload) // "Błąd rejestracji"

  class RegisterScreen {
    var error: Option<string>
    var loading: bool

    constructor()
      ensures error == None && !loading
    {
      error := None;
      loading := false;
    }

    /** `handleSubmit()`: validation sets or clears the error; an accepted form shows the
        failure alert and the spinner stops either way. */
    method HandleSubmit(form: Form) returns (outcome: SubmitOutcome)
      modifies this
      ensures error == Validate(form)
      ensures Validate(form).Some? ==> loading == old(loading)
      ensures Validate(form).None? ==> !loading
      ensures Validate(form).Some? ==> outcome == Rejected(Validate(form).value)
      ensures Validate(form).None? ==> outcome == FailureAlert(Payload(form))
    {
      error := Validate(form);
      if error.Some? {
        return Rejected(error.value);
      }
      var payload := Payload(form);
      loading := true;
      // `register` is not part of the auth context value: calling it throws.
      outcome := FailureAlert(payload);
      loading := false;
    }
  }
}
