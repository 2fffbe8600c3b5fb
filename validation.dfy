/** The two submission guards of the login modal: the phone check of the
    "send code" button and the ordered checks of the login form. Both are
    early-return decision chains, so they are modelled as total functions
    whose result names the alert shown or the request dispatched. */
module Validation {

  /** The two tabs of the login form. */
  datatype LoginType = Password | Sms

  /** What a submission of the login form ends in: one of the four alerts,
      or the payload handed to the (stubbed) login request. */
  datatype LoginOutcome =
    | InvalidPhone
    | TermsNotAccepted
    | MissingPassword
    | MissingCode
    | PasswordLogin(phoneNumber: string, password: string)
    | SmsLogin(phoneNumber: string, verificationCode: string)

  /** What a click on "send code" ends in: the phone alert, or the
      (stubbed) request for a code to this number. */
  datatype SendOutcome = PhoneRejected | CodeSent(phoneNumber: string)

  /** Length a phone number must have, in characters. */
  const PhoneLength: nat := 11

  /** The phone guard shared by both handlers, with both of its disjuncts:
      an empty number or one whose length is not 11 is refused. Only the
      length matters, and the emptiness test is subsumed by it. */
  function PhoneAccepted(phone: string): (ok: bool)
    ensures ok <==> |phone| == PhoneLength
  {
    !(phone == "" || |phone| != PhoneLength)
  }

  /** Guard of the "send code" handler. */
  function HandleSendCode(phone: string): (r: SendOutcome)
    ensures r.CodeSent? <==> |phone| == PhoneLength
    ensures r.CodeSent? ==> r.phoneNumber == phone
  {
    if !PhoneAccepted(phone) then PhoneRejected else CodeSent(phone)
  }

  /** The login form's submission handler: phone, then terms, then the
      credential of the selected tab; the first failing check wins. */
  function HandleLogin(phone: string, agreedToTerms: bool, loginType: LoginType,
                       password: string, verificationCode: string): (r: LoginOutcome)
    ensures r == InvalidPhone <==> |phone| != PhoneLength
    ensures r == TermsNotAccepted <==> |phone| == PhoneLength && !agreedToTerms
    ensures r == MissingPassword <==>
              |phone| == PhoneLength && agreedToTerms && loginType == Password && password == ""
    ensures r == MissingCode <==>
              |phone| == PhoneLength && agreedToTerms && loginType == Sms && verificationCode == ""
    ensures r.PasswordLogin? <==>
              |phone| == PhoneLength && agreedToTerms && loginType == Password && password != ""
    ensures r.SmsLogin? <==>
              |phone| == PhoneLength && agreedToTerms && loginType == Sms && verificationCode != ""
    ensures r.PasswordLogin? ==> r == PasswordLogin(phone, password)
    ensures r.SmsLogin? ==> r == SmsLogin(phone, verificationCode)
  {
    if !PhoneAccepted(phone) then InvalidPhone
    else if !agreedToTerms then TermsNotAccepted
    else match loginType
      case Password => if password == "" then MissingPassword else PasswordLogin(phone, password)
      case Sms => if verificationCode == "" then MissingCode else SmsLogin(phone, verificationCode)
  }

  // ---------------------------------------------------------------------------
  // A reference reading of the login handler: a list of checks, each with the
  // alert it raises, evaluated in order until one fails.

  datatype Check = Check(passes: bool, failure: LoginOutcome)

  /** The outcome of running `checks` in order: the failure of the first
      check that does not pass, or `success` when all pass. */
  function FirstFailure(checks: seq<Check>, success: LoginOutcome): (r: LoginOutcome)
    ensures (forall i :: 0 <= i < |checks| ==> checks[i].passes) ==> r == success
    ensures forall i :: (0 <= i < |checks| && !checks[i].passes &&
                         forall j :: 0 <= j < i ==> checks[j].passes) ==> r == checks[i].failure
  {
    if checks == [] then success
    else if !checks[0].passes then checks[0].failure
    else FirstFailure(checks[1..], success)
  }

  /** The checks of the login form in the order the handler runs them. */
  function LoginChecks(phone: string, agreedToTerms: bool, loginType: LoginType,
                       password: string, verificationCode: string): seq<Check>
  {
    [ Check(|phone| == PhoneLength, InvalidPhone),
      Check(agreedToTerms, TermsNotAccepted),
      match loginType
        case Password => Check(password != "", MissingPassword)
        case Sms => Check(verificationCode != "", MissingCode) ]
  }

  /** The request a fully valid form dispatches. */
  function LoginRequest(phone: string, loginType: LoginType,
                        password: string, verificationCode: string): LoginOutcome
  {
    match loginType
      case Password => PasswordLogin(phone, password)
      case Sms => SmsLogin(phone, verificationCode)
  }

  /** The handler is exactly "first failing check wins" over the ordered list. */
  lemma HandleLoginIsFirstFailure(phone: string, agreedToTerms: bool, loginType: LoginType,
                                  password: string, verificationCode: string)
    ensures HandleLogin(phone, agreedToTerms, loginType, password, verificationCode)
         == FirstFailure(LoginChecks(phone, agreedToTerms, loginType, password, verificationCode),
                         LoginRequest(phone, loginType, password, verificationCode))
  {
    var checks := LoginChecks(phone, agreedToTerms, loginType, password, verificationCode);
    if |phone| != PhoneLength {
      assert !checks[0].passes;
    } else if !agreedToTerms {
      assert checks[0].passes && !checks[1].passes;
    } else if !checks[2].passes {
      assert checks[0].passes && checks[1].passes;
    } else {
      assert forall i :: 0 <= i < 3 ==> checks[i].passes;
    }
  }

  // ---------------------------------------------------------------------------
  // Properties of the two guards.

  /** Both handlers refuse a phone number of the wrong length, and they let
      through exactly the same numbers. */
  lemma PhoneGuardShared(phone: string, agreedToTerms: bool, loginType: LoginType,
                         password: string, verificationCode: string)
    ensures HandleSendCode(phone) == PhoneRejected
        <==> HandleLogin(phone, agreedToTerms, loginType, password, verificationCode) == InvalidPhone
  {
  }

  /** The phone check looks at the length only: any 11 characters pass,
      digits or not, and the empty number is refused by its length. */
  lemma PhoneCheckIsLengthOnly()
    ensures PhoneAccepted("abcdefghijk")
    ensures !PhoneAccepted("")
    ensures !PhoneAccepted("123")
    ensures PhoneAccepted("13800138000")
  {
  }

  /** With a valid phone and the terms unticked, login fails on the terms
      whatever the tab and the credentials. */
  lemma TermsDominateCredentials(phone: string, loginType: LoginType,
                                 password: string, verificationCode: string)
    requires |phone| == PhoneLength
    ensures HandleLogin(phone, false, loginType, password, verificationCode) == TermsNotAccepted
  {
  }

  /** On the password tab the verification code is never examined, and on
      the SMS tab the password is never examined. */
  lemma UnusedCredentialIgnored(phone: string, agreedToTerms: bool,
                                password: string, password': string,
                                code: string, code': string)
    ensures HandleLogin(phone, agreedToTerms, Password, password, code)
         == HandleLogin(phone, agreedToTerms, Password, password, code')
    ensures HandleLogin(phone, agreedToTerms, Sms, password, code)
         == HandleLogin(phone, agreedToTerms, Sms, password', code)
  {
  }

  /** The SMS tab behaves as the password tab with the two credentials
      exchanged: the outcomes correspond under `Mirror`. */
  function Mirror(r: LoginOutcome): LoginOutcome
  {
    match r
      case MissingPassword => MissingCode
      case MissingCode => MissingPassword
      case PasswordLogin(p, s) => SmsLogin(p, s)
      case SmsLogin(p, s) => PasswordLogin(p, s)
      case _ => r
  }

  lemma MirrorInvolutive(r: LoginOutcome)
    ensures Mirror(Mirror(r)) == r
  {
  }

  lemma SmsMirrorsPassword(phone: string, agreedToTerms: bool, password: string, code: string)
    ensures HandleLogin(phone, agreedToTerms, Sms, password, code)
         == Mirror(HandleLogin(phone, agreedToTerms, Password, code, password))
  {
  }

  /** A verification code of any non-empty length is accepted: the six-character
      limit lives in the input element only. */
  lemma AnyNonEmptyCodeAccepted(phone: string, code: string, password: string)
    requires |phone| == PhoneLength && code != ""
    ensures HandleLogin(phone, true, Sms, password, code) == SmsLogin(phone, code)
  {
  }
}
