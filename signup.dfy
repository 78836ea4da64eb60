/** The sign-up page (src/pages/Signup.jsx): the checks run on submit, in their fixed order, and
    the mapping of registration error codes to messages. */
module Signup {
  import opened Js

  datatype SignupForm = SignupForm(name: string, email: string, password: string, confirmPassword: string)

  const InvalidEmail := "Please enter a valid email address."
  const PasswordMismatch := "Passwords do not match."
  const PasswordTooShort := "Password must be at least 6 characters."
  const EmailInUse := "This email is already registered."
  const RegistrationFailed := "Registration failed. Please try again."

  /** What the checks decide: an error message, or the trimmed email to register with. */
  datatype Verdict = Rejected(message: string) | Accepted(email: string)

  /** The early-return checks of `handleSubmit`, in order: the email must be non-empty and hold
      an "@"; then the two passwords must match; then the password must be at least 6 UTF-16
      code units long. */
  function Validate(form: SignupForm): (r: Verdict)
    ensures (form.email == "" || '@' !in form.email) ==> r == Rejected(InvalidEmail)
    ensures form.email != "" && '@' in form.email && form.password != form.confirmPassword ==>
      r == Rejected(PasswordMismatch)
    ensures (form.email != "" && '@' in form.email && form.password == form.confirmPassword &&
             Utf16Length(form.password) < 6) ==> r == Rejected(PasswordTooShort)
    ensures r.Accepted? <==>
      form.email != "" && '@' in form.email && form.password == form.confirmPassword && Utf16Length(form.password) >= 6
    ensures r.Accepted? ==> r.email == Trim(form.email)
  {
    if form.email == "" || '@' !in form.email then Rejected(InvalidEmail)
    else if form.password != form.confirmPassword then Rejected(PasswordMismatch)
    else if Utf16Length(form.password) < 6 then Rejected(PasswordTooShort)
    else Accepted(Trim(form.email))
  }

  /** A mismatch is reported even for a password that is also too short: the mismatch check
      comes first. */
  lemma MismatchBeforeLength(form: SignupForm)
    requires form.email != "" && '@' in form.email
    requires form.password != form.confirmPassword && Utf16Length(form.password) < 6
    ensures Validate(form) == Rejected(PasswordMismatch)
  {
  }

  /** A bad email hides every password problem. */
  lemma EmailFirst(form: SignupForm, password: string, confirmPassword: string)
    requires form.email == "" || '@' !in form.email
    ensures Validate(form.(password := password, confirmPassword := confirmPassword)) == Validate(form)
  {
  }

  /** The message for a failed `register`, by the error's `code` (`None` when it has none). */
  function ErrorMessage(code: Option<string>): (r: string)
    ensures code == Some("auth/email-already-in-use") ==> r == EmailInUse
    ensures code == Some("auth/invalid-email") ==> r == InvalidEmail
    ensures code == Some("auth/weak-password") ==> r == PasswordTooShort
    ensures code !in {Some("auth/email-already-in-use"), Some("auth/invalid-email"), Some("auth/weak-password")} ==>
      r == RegistrationFailed
  {
    if code == Some("auth/email-already-in-use") then EmailInUse
    else if code == Some("auth/invalid-email") then InvalidEmail
    else if code == Some("auth/weak-password") then PasswordTooShort
    else RegistrationFailed
  }

  /** How the `register` call ends: it resolves, or it throws an error with this code. */
  datatype Outcome = Registered | Failed(code: Option<string>)

  /** The arguments `register` receives: email, password, name. */
  datatype Registration = Registration(email: string, password: string, name: string)

  /** The page's state cells. */
  class SignupPage {
    var error: string
    var isLoading: bool

    constructor ()
      ensures error == "" && !isLoading
    {
      error := "";
      isLoading := false;
    }

    /** `handleSubmit`: clear the error; on a rejected form show its message and stop; otherwise
        call `register` with the trimmed email, then show the mapped message if it failed, and
        end with `isLoading` false. Returns the registration request, if one was made, and
        whether the page navigates to `/overview`. */
    method HandleSubmit(form: SignupForm, outcome: Outcome) returns (request: Option<Registration>, navigated: bool)
      modifies this`error, this`isLoading
      ensures Validate(form).Rejected? ==>
        request == None && !navigated && error == Validate(form).message && isLoading == old(isLoading)
      ensures Validate(form).Accepted? ==>
        request == Some(Registration(Trim(form.email), form.password, form.name)) && !isLoading
      ensures Validate(form).Accepted? && outcome.Registered? ==> navigated && error == ""
      ensures Validate(form).Accepted? && outcome.Failed? ==> !navigated && error == ErrorMessage(outcome.code)
    {
      error := "";
      navigated := false;
      var verdict := Validate(form);
      if verdict.Rejected? {
        error := verdict.message;
        return None, false;
      }
      isLoading := true;
      request := Some(Registration(verdict.email, form.password, form.name));
      match outcome {
        case Registered =>
          navigated := true;
        case Failed(code) =>
          error := ErrorMessage(code);
      }
      isLoading := false;
    }
  }
}
