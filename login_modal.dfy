/** The login modal's local state and its event handlers. Each `useState`
    variable of the component is a field; each handler is a method that
    changes the fields it sets and nothing else. The one-second interval is
    the `timerRunning` flag, and each firing of it is an explicit call of
    `Tick`. */
module LoginModal {
  import opened Validation
  import Countdown

  /** A snapshot of every field of the modal, so that a handler's effect can
      be stated as an update of the old snapshot. */
  datatype FormState = FormState(
    loginType: LoginType,
    phoneNumber: string,
    password: string,
    verificationCode: string,
    showPassword: bool,
    agreedToTerms: bool,
    timer: Countdown.State)

  class Modal {
    var loginType: LoginType
    var phoneNumber: string
    var password: string
    var verificationCode: string
    var showPassword: bool
    var agreedToTerms: bool
    var countdown: int
    var timerRunning: bool

    function Timer(): Countdown.State
      reads this
    {
      Countdown.State(countdown, timerRunning)
    }

    function State(): FormState
      reads this
    {
      FormState(loginType, phoneNumber, password, verificationCode,
                showPassword, agreedToTerms, Timer())
    }

    /** The countdown stays within [0, 60], and the interval is scheduled
        exactly while it is positive. */
    ghost predicate Valid()
      reads this
    {
      Countdown.Consistent(Timer())
    }

    /** The initial state of the component: password tab, empty fields,
        password hidden, terms unticked, no countdown. */
    constructor ()
      ensures Valid()
      ensures State() == FormState(Password, "", "", "", false, false, Countdown.Idle)
    {
      loginType := Password;
      phoneNumber := "";
      password := "";
      verificationCode := "";
      showPassword := false;
      agreedToTerms := false;
      countdown := 0;
      timerRunning := false;
    }

    /** Clicking a tab selects it; every entered value is kept, so switching
        back shows the earlier input again. */
    method SetLoginType(t: LoginType)
      modifies this
      ensures State() == old(State()).(loginType := t)
    {
      loginType := t;
    }

    method SetPhoneNumber(value: string)
      modifies this
      ensures State() == old(State()).(phoneNumber := value)
    {
      phoneNumber := value;
    }

    /** The shared credential input writes the password on the password tab
        and the verification code on the SMS tab; the other one is kept. */
    method EditCredential(value: string)
      modifies this
      ensures old(loginType) == Password ==> State() == old(State()).(password := value)
      ensures old(loginType) == Sms ==> State() == old(State()).(verificationCode := value)
    {
      if loginType == Password {
        password := value;
      } else {
        verificationCode := value;
      }
    }

    /** The eye button flips password visibility and changes nothing else. */
    method TogglePasswordVisibility()
      modifies this
      ensures State() == old(State()).(showPassword := !old(showPassword))
    {
      showPassword := !showPassword;
    }

    method SetAgreedToTerms(checked: bool)
      modifies this
      ensures State() == old(State()).(agreedToTerms := checked)
    {
      agreedToTerms := checked;
    }

    /** The "send code" button is enabled exactly when no countdown is left. */
    function ResendEnabled(): (enabled: bool)
      reads this
      requires Valid()
      ensures enabled <==> countdown == 0
      ensures enabled <==> !timerRunning
    {
      !(countdown > 0)
    }

    /** The "send code" handler: a phone number of the wrong length raises
        the alert and changes nothing; otherwise the countdown restarts at
        60 with the interval scheduled. The handler has no guard of its own
        against a countdown in progress. */
    method SendCode() returns (outcome: SendOutcome)
      requires Valid()
      modifies this
      ensures Valid()
      ensures outcome == HandleSendCode(old(phoneNumber))
      ensures outcome == PhoneRejected ==> State() == old(State())
      ensures outcome.CodeSent? ==> State() == old(State()).(timer := Countdown.Started)
    {
      outcome := HandleSendCode(phoneNumber);
      if outcome.CodeSent? {
        countdown := Countdown.Start;
        timerRunning := true;
      }
    }

    /** One firing of the interval: at 1 or below the countdown becomes 0 and
        the interval is cleared, otherwise it goes down by one. */
    method Tick()
      requires Valid() && timerRunning
      modifies this
      ensures Valid()
      ensures State() == old(State()).(timer := Countdown.Tick(old(Timer())))
      ensures countdown < old(countdown)
    {
      if countdown <= 1 {
        timerRunning := false;
        countdown := 0;
      } else {
        countdown := countdown - 1;
      }
    }

    /** The interval firing until it clears itself: it fires exactly as many
        times as there were seconds left and leaves the countdown at 0 with
        no interval scheduled. */
    method RunTimer() returns (ticks: nat)
      requires Valid()
      modifies this
      ensures Valid()
      ensures ticks == old(countdown)
      ensures State() == old(State()).(timer := Countdown.Idle)
      ensures Timer() == Countdown.Ticks(old(Timer()), ticks)
    {
      ticks := 0;
      while timerRunning
        invariant Valid()
        invariant ticks + countdown == old(countdown)
        invariant Timer() == Countdown.Ticks(old(Timer()), ticks)
        invariant State() == old(State()).(timer := Timer())
        decreases countdown
      {
        Tick();
        ticks := ticks + 1;
      }
    }

    /** The login form's submit handler; it only reads the form. */
    method Submit() returns (outcome: LoginOutcome)
      ensures outcome == HandleLogin(phoneNumber, agreedToTerms, loginType, password, verificationCode)
    {
      if phoneNumber == "" || |phoneNumber| != PhoneLength {
        return InvalidPhone;
      }
      if !agreedToTerms {
        return TermsNotAccepted;
      }
      if loginType == Password {
        if password == "" {
          return MissingPassword;
        }
        outcome := PasswordLogin(phoneNumber, password);
      } else {
        if verificationCode == "" {
          return MissingCode;
        }
        outcome := SmsLogin(phoneNumber, verificationCode);
      }
    }
  }

  /** Sessions with the modal, as a user would drive it. */
  method Sessions()
  {
    var m := new Modal();

    // A short number is refused and no countdown starts.
    m.SetPhoneNumber("123");
    var sent := m.SendCode();
    assert sent == PhoneRejected;
    assert m.countdown == 0 && m.ResendEnabled();

    // Password typed, switch to SMS and back: the password is still there.
    m.SetPhoneNumber("13800138000");
    m.EditCredential("secret");
    m.SetLoginType(Sms);
    m.SetLoginType(Password);
    assert m.password == "secret";

    // SMS tab, terms ticked, no code yet.
    m.SetLoginType(Sms);
    m.SetAgreedToTerms(true);
    var login := m.Submit();
    assert login == MissingCode;

    // A valid send disables resend for exactly 60 firings of the interval.
    sent := m.SendCode();
    assert sent == CodeSent("13800138000");
    assert !m.ResendEnabled();
    var ticks := m.RunTimer();
    assert ticks == 60 && m.ResendEnabled();
    assert m.password == "secret";
  }
}
