/**
  * The logic of the sign-up page (app/signup/page.tsx), without its markup.
  *
  * The two validation effects are functions of the fields they watch. The
  * handlers are methods of a form object whose fields are the page's state
  * variables; each runs as one atomic step. What an awaited request did
  * (resolved or threw) is an input, and the request the handler sends is an
  * output.
  */
module SignUpPage {
  import opened Wrappers
  import opened Validation

  const EmailErrorMessage: string := "가천대학교 이메일(@gachon.ac.kr)만 사용 가능합니다."
  const PasswordErrorMessage: string := "비밀번호가 일치하지 않습니다."
  const SignUpFailedMessage: string := "회원가입 중 오류가 발생했습니다."
  const VerificationFailedMessage: string := "이메일 인증 중 오류가 발생했습니다."
  const VerifiedRedirect: string := "/login?verified=true"

  /** The email effect: an error only for a non-empty, non-institutional address. */
  function EmailError(email: string): (message: string)
    ensures message != "" <==> email != "" && !IsGachonEmail(email)
    ensures message == "" || message == EmailErrorMessage
  {
    if email != "" && !IsGachonEmail(email) then EmailErrorMessage else ""
  }

  /** The password effect: an error only when both fields are filled in and differ. */
  function PasswordError(password: string, passwordConfirm: string): (message: string)
    ensures message != "" <==> password != "" && passwordConfirm != "" && password != passwordConfirm
    ensures message == "" || message == PasswordErrorMessage
  {
    if password != "" && passwordConfirm != "" && password != passwordConfirm then PasswordErrorMessage else ""
  }

  /** How an awaited request settled: it resolved, threw an `Error` with a message, or threw something else. */
  datatype Outcome = Resolved | ThrewError(message: string) | ThrewOther

  /** The body of the sign-up request. */
  datatype SignUpRequest = SignUpRequest(name: string, email: string, password: string)

  /** The body of the verification request. */
  datatype VerifyRequest = VerifyRequest(email: string, code: string)

  /** The banner after a failed sign-up: `err.message || default`, or the default for a non-`Error` throw. */
  function SignUpFailure(thrown: Outcome): (message: string)
    requires !thrown.Resolved?
    ensures message != ""
    ensures thrown.ThrewError? && thrown.message != "" ==> message == thrown.message
    ensures !(thrown.ThrewError? && thrown.message != "") ==> message == SignUpFailedMessage
  {
    match thrown
    case ThrewError(m) => if m != "" then m else SignUpFailedMessage
    case ThrewOther => SignUpFailedMessage
  }

  /** The banner after a failed verification: `err.message` as it is, or the default for a non-`Error` throw. */
  function VerificationFailure(thrown: Outcome): (message: string)
    requires !thrown.Resolved?
    ensures thrown.ThrewError? ==> message == thrown.message
    ensures thrown.ThrewOther? ==> message == VerificationFailedMessage
  {
    match thrown
    case ThrewError(m) => m
    case ThrewOther => VerificationFailedMessage
  }

  /** The page's state variables, for stating what a step changes. */
  datatype FormFields = FormFields(
    error: string, verificationStep: bool,
    name: string, email: string, password: string, passwordConfirm: string)

  /**
    * The page's state. The sign-up form, with its inputs and `handleSignUp`,
    * is rendered only before the verification step; the verification form,
    * with `handleVerification`, only on it. Each handler requires the step
    * on which its form exists.
    */
  class SignUpForm {
    var error: string
    var verificationStep: bool
    var name: string
    var email: string
    var password: string
    var passwordConfirm: string

    function Snapshot(): FormFields
      reads this
    {
      FormFields(error, verificationStep, name, email, password, passwordConfirm)
    }

    /**
      * The browser's `required` check on the sign-up form: the submit event
      * fires only when name, address, password and confirmation are all non-empty.
      */
    function RequiredFieldsFilled(): (filled: bool)
      reads this
      ensures filled <==> "" !in [name, email, password, passwordConfirm]
    {
      name != "" && email != "" && password != "" && passwordConfirm != ""
    }

    /** `disabled={!!emailError || !!passwordError}` on the submit button. */
    function SubmitDisabled(): (disabled: bool)
      reads this
      ensures disabled <==>
        (email != "" && !IsGachonEmail(email)) || (password != "" && passwordConfirm != "" && password != passwordConfirm)
    {
      EmailError(email) != "" || PasswordError(password, passwordConfirm) != ""
    }

    /** Every state variable starts empty, on the sign-up step. */
    constructor ()
      ensures Snapshot() == FormFields("", false, "", "", "", "")
    {
      error, verificationStep := "", false;
      name, email, password, passwordConfirm := "", "", "", "";
    }

    /** The name field's `onChange`: it does not clear the banner. */
    method ChangeName(value: string)
      requires !verificationStep
      modifies this
      ensures Snapshot() == old(Snapshot()).(name := value)
    {
      name := value;
    }

    /** The email field's `onChange`: the new value, and the banner cleared. */
    method ChangeEmail(value: string)
      requires !verificationStep
      modifies this
      ensures Snapshot() == old(Snapshot()).(email := value, error := "")
    {
      email := value;
      error := "";
    }

    /** The password field's `onChange`: the new value, and the banner cleared. */
    method ChangePassword(value: string)
      requires !verificationStep
      modifies this
      ensures Snapshot() == old(Snapshot()).(password := value, error := "")
    {
      password := value;
      error := "";
    }

    /** The confirmation field's `onChange`: the new value, and the banner cleared. */
    method ChangePasswordConfirm(value: string)
      requires !verificationStep
      modifies this
      ensures Snapshot() == old(Snapshot()).(passwordConfirm := value, error := "")
    {
      passwordConfirm := value;
      error := "";
    }

    /**
      * Submitting the sign-up form: the browser fires the submit event only when
      * every required field is filled in; `handleSignUp` then sends nothing and
      * changes nothing while a field error is shown; otherwise it sends name,
      * address and password, and moves to the verification step when the
      * request resolves or shows why it failed.
      */
    method HandleSignUp(outcome: Outcome) returns (request: Option<SignUpRequest>)
      requires !verificationStep
      modifies this
      ensures request.None? <==> !old(RequiredFieldsFilled()) || old(SubmitDisabled())
      ensures request.None? ==> Snapshot() == old(Snapshot())
      ensures request.Some? ==>
        request.value == SignUpRequest(old(name), old(email), old(password))
        && request.value.name != "" && request.value.email != "" && request.value.password != ""
      ensures request.Some? && outcome.Resolved? ==>
        Snapshot() == old(Snapshot()).(verificationStep := true, error := "")
      ensures request.Some? && !outcome.Resolved? ==>
        Snapshot() == old(Snapshot()).(error := SignUpFailure(outcome)) && error != ""
    {
      if !RequiredFieldsFilled() {
        return None;
      }
      if EmailError(email) != "" || PasswordError(password, passwordConfirm) != "" {
        return None;
      }
      request := Some(SignUpRequest(name, email, password));
      if outcome.Resolved? {
        verificationStep := true;
        error := "";
      } else {
        error := SignUpFailure(outcome);
      }
    }

    /**
      * Submitting the verification form: the browser's `required` check holds
      * back an empty code; otherwise `handleVerification` sends the address and
      * the code, navigates to the login page on success, and otherwise shows the
      * failure and stays on the verification step.
      */
    method HandleVerification(code: string, outcome: Outcome) returns (request: Option<VerifyRequest>, redirect: Option<string>)
      requires verificationStep
      modifies this
      ensures request.None? <==> code == ""
      ensures request.None? ==> redirect == None && Snapshot() == old(Snapshot())
      ensures request.Some? ==> request.value == VerifyRequest(email, code)
      ensures request.Some? && outcome.Resolved? ==> redirect == Some(VerifiedRedirect) && Snapshot() == old(Snapshot())
      ensures request.Some? && !outcome.Resolved? ==>
        redirect == None && Snapshot() == old(Snapshot()).(error := VerificationFailure(outcome))
      ensures verificationStep
    {
      if code == "" {
        return None, None;
      }
      request := Some(VerifyRequest(email, code));
      if outcome.Resolved? {
        redirect := Some(VerifiedRedirect);
      } else {
        redirect := None;
        error := VerificationFailure(outcome);
      }
    }
  }

  /**
    * An empty address and a blank password field raise no field error: the
    * effects leave empty fields to the browser's `required` check.
    */
  lemma BlankFieldsRaiseNoError(password: string)
    ensures EmailError("") == ""
    ensures PasswordError(password, "") == "" && PasswordError("", password) == ""
  {
  }

  /** Unlike sign-up, a verification failure whose `Error` has an empty message leaves the banner blank. */
  lemma VerificationFailureMayBeBlank()
    ensures VerificationFailure(ThrewError("")) == ""
    ensures SignUpFailure(ThrewError("")) == SignUpFailedMessage
  {
  }
}
