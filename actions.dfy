/**
  * The server actions of actions/auth.ts: each maps form fields to a result
  * object through early-return guards. Sign-in and verification are stubs
  * that succeed once their guards pass.
  */
module Actions {
  import opened Validation

  const DomainError: string := "가천대학교 이메일(@gachon.ac.kr)만 사용 가능합니다."
  const MismatchError: string := "비밀번호가 일치하지 않습니다."
  /** The placeholder code `sendVerificationEmail` hands back. */
  const StubVerificationCode: string := "123456"

  /** The fields `signUp` reads from its form. */
  datatype SignUpFields = SignUpFields(email: string, password: string, passwordConfirm: string, name: string)

  /** `{ error }` or `{ success: true, email, verificationCode }`. */
  datatype SignUpResult =
    | SignUpError(error: string)
    | SignUpSuccess(email: string, verificationCode: string)

  /** `{ error }` or `{ success: true }`. */
  datatype SignInResult = SignInError(error: string) | SignInSuccess

  /** `sendVerificationEmail`: a stub that returns a fixed code for every address. */
  function SendVerificationEmail(email: string): (code: string)
    ensures |code| == 6
  {
    StubVerificationCode
  }

  /** `signUp`: the domain check first, then the password match, then the stub code. */
  function SignUp(form: SignUpFields): (r: SignUpResult)
    ensures !IsGachonEmail(form.email) ==> r == SignUpError(DomainError)
    ensures IsGachonEmail(form.email) && form.password != form.passwordConfirm ==> r == SignUpError(MismatchError)
    ensures r.SignUpSuccess? <==> IsGachonEmail(form.email) && form.password == form.passwordConfirm
    ensures r.SignUpSuccess? ==> r.email == form.email && r.verificationCode == StubVerificationCode
  {
    if !IsGachonEmail(form.email) then SignUpError(DomainError)
    else if form.password != form.passwordConfirm then SignUpError(MismatchError)
    else SignUpSuccess(form.email, SendVerificationEmail(form.email))
  }

  /** `signIn`: only the domain is checked; the password is never looked at. */
  function SignIn(email: string, password: string): (r: SignInResult)
    ensures r == SignInSuccess <==> IsGachonEmail(email)
    ensures r != SignInSuccess ==> r == SignInError(DomainError)
  {
    if !IsGachonEmail(email) then SignInError(DomainError) else SignInSuccess
  }

  /** `verifyEmail`: every address and code is accepted. */
  function VerifyEmail(email: string, code: string): (success: bool)
    ensures success
  {
    true
  }

  /** The domain check comes first: a foreign address gets the domain error whatever the passwords. */
  lemma SignUpChecksDomainFirst(email: string, p1: string, q1: string, p2: string, q2: string, name: string)
    requires !IsGachonEmail(email)
    ensures SignUp(SignUpFields(email, p1, q1, name)) == SignUp(SignUpFields(email, p2, q2, name))
    ensures p1 != q1 ==> SignUp(SignUpFields(email, p1, q1, name)) != SignUpError(MismatchError)
  {
  }

  /** `signUp` never applies the password-length rule: any matching pair passes. */
  lemma SignUpIgnoresPasswordLength(local: string, password: string, name: string)
    requires !ValidatePassword(password)
    ensures SignUp(SignUpFields(local + GachonSuffix, password, password, name)).SignUpSuccess?
  {
    AnyLocalPartAccepted(local);
  }

  /** `signIn` accepts every password for an institutional address, even an empty one. */
  lemma SignInIgnoresPassword(local: string, password: string)
    ensures SignIn(local + GachonSuffix, password) == SignInSuccess
    ensures SignIn("a@gmail.com", password) == SignInError(DomainError)
  {
    AnyLocalPartAccepted(local);
    OtherDomainsRejected();
  }
}
