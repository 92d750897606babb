/** The OTP login form: a phone step that normalises and checks the mobile
    number and asks for a code, and a code step with six one-digit boxes, a
    resend countdown and a way back to the phone step. */
module Login {
  import opened Common
  import opened Text
  import opened Phone

  /** The one number the demo back end knows. */
  const KnownClientPhone: string := "9876543210"

  /** `checkUserExists`. */
  function UserExists(mobile: string): bool {
    NormalizePhone(mobile) == KnownClientPhone
  }

  /** The known number is recognised whether it is typed as ten digits
      or in the "+91 xxxxx xxxxx" form. */
  lemma KnownNumberRecognised(a: string, b: string)
    requires AllDigits(a) && AllDigits(b) && a + b == KnownClientPhone
    ensures UserExists(a + b)
    ensures UserExists("+91 " + a + " " + b)
  {
    assert AllDigits(a + b) by {
      forall i | 0 <= i < |a + b|
        ensures IsDigit((a + b)[i])
      {
        if i >= |a| {
          assert (a + b)[i] == b[i - |a|];
        }
      }
    }
    TenDigitsUnchanged(a + b);
    FormattedNumberNormalizes(a, b);
  }

  // ---------------------------------------------------------------------
  // Validation; the error record maps a field name to its message.

  const MobileRequired: string := "Mobile number is required"
  const MobileInvalid: string := "Please enter a valid 10-digit mobile number"
  const OtpIncomplete: string := "Please enter complete 6-digit OTP"
  const OtpInvalid: string := "Invalid OTP. Please try again."
  const AuthenticationFailed: string := "Authentication failed. Please try again."
  const SendFailed: string := "Failed to send OTP"
  const ResendFailed: string := "Failed to resend OTP"

  predicate ValidMobile(mobile: string) {
    mobile != "" && |NormalizePhone(mobile)| == 10
  }

  /** `validateMobile`: no error exactly for a valid number, else a single
      error on the mobile field. */
  function ValidateMobile(mobile: string): (errors: map<string, string>)
    ensures "mobile" !in errors <==> ValidMobile(mobile)
    ensures errors.Keys <= {"mobile"}
    ensures mobile == "" ==> errors == map["mobile" := MobileRequired]
  {
    if mobile == "" then map["mobile" := MobileRequired]
    else if |NormalizePhone(mobile)| != 10 then map["mobile" := MobileInvalid]
    else map[]
  }

  const DemoOtp: string := "123456"

  /** `validateOTP`: the joined boxes must be the demo code. */
  function ValidateOtp(otp: seq<string>): (errors: map<string, string>)
    ensures "otp" !in errors <==> Concat(otp) == DemoOtp
    ensures errors.Keys <= {"otp"}
    ensures |Concat(otp)| != 6 ==> errors == map["otp" := OtpIncomplete]
    ensures |Concat(otp)| == 6 && Concat(otp) != DemoOtp ==> errors == map["otp" := OtpInvalid]
  {
    var code := Concat(otp);
    if |code| != 6 then map["otp" := OtpIncomplete]
    else if code != DemoOtp then map["otp" := OtpInvalid]
    else map[]
  }

  function EmptyOtp(): (r: seq<string>)
    ensures |r| == 6 && forall i :: 0 <= i < 6 ==> r[i] == ""
  {
    ["", "", "", "", "", ""]
  }

  datatype LoginStep = PhoneStep | OtpStep

  /** How the OTP request to the back end ends. */
  datatype OtpResponse = Success | Failure(message: string) | NetworkError

  class LoginForm {
    var step: LoginStep
    var mobile: string
    var otp: seq<string>
    var errors: map<string, string>
    var isLoading: bool
    var timer: nat
    var canResend: bool
    var isNewUser: bool
    /** Set when the user is signed in and sent to the dashboard. */
    var authenticated: bool
    /** The number and the new-user flag as they were when Verify was
        pressed; the verification timer reads these, not the live fields. */
    var verifyingMobile: string
    var verifyingNewUser: bool
    /** The stored `userMobile` ("" before any sign-in) and the stored
        `isNewRegistration` flag. */
    var storedMobile: string
    var newRegistration: bool

    /** Six boxes; the code step is only reached with a valid number; and
        once the countdown has run out a resend is offered. */
    ghost predicate Valid()
      reads this
    {
      && |otp| == 6
      && (step == OtpStep ==> ValidMobile(mobile))
      && (step == OtpStep && timer == 0 ==> canResend)
      && (isLoading ==> ValidMobile(verifyingMobile))
    }

    /** The form as mounted; the countdown effect runs once with a zero
        timer and allows resending. */
    constructor()
      ensures Valid()
      ensures step == PhoneStep && mobile == "" && otp == EmptyOtp() && errors == map[]
      ensures !isLoading && timer == 0 && canResend && !isNewUser && !authenticated
      ensures storedMobile == "" && !newRegistration
    {
      step := PhoneStep;
      mobile := "";
      otp := EmptyOtp();
      errors := map[];
      isLoading := false;
      timer := 0;
      canResend := true;
      isNewUser := false;
      authenticated := false;
      verifyingMobile := "";
      verifyingNewUser := false;
      storedMobile := "";
      newRegistration := false;
    }

    /** Typing the mobile number (the field exists on the phone step only). */
    method SetMobile(value: string)
      requires Valid() && step == PhoneStep
      modifies this
      ensures Valid()
      ensures mobile == value && errors == ClearError(old(errors), "mobile")
      ensures step == old(step) && otp == old(otp) && timer == old(timer) && canResend == old(canResend)
      ensures isNewUser == old(isNewUser) && isLoading == old(isLoading) && authenticated == old(authenticated)
      ensures verifyingMobile == old(verifyingMobile) && verifyingNewUser == old(verifyingNewUser)
      ensures storedMobile == old(storedMobile) && newRegistration == old(newRegistration)
    {
      mobile := value;
      errors := ClearError(errors, "mobile");
    }

    /** `handleOTPChange`: a box takes the typed value only if it is all
        digits (the box holds at most one character). */
    method ChangeOtpDigit(index: int, value: string)
      requires Valid() && step == OtpStep
      requires 0 <= index < 6 && |value| <= 1
      modifies this
      ensures Valid()
      ensures AllDigits(value) ==> otp == old(otp)[index := value] && errors == ClearError(old(errors), "otp")
      ensures !AllDigits(value) ==> otp == old(otp) && errors == old(errors)
      ensures step == old(step) && mobile == old(mobile) && timer == old(timer) && canResend == old(canResend)
      ensures isNewUser == old(isNewUser) && isLoading == old(isLoading) && authenticated == old(authenticated)
      ensures verifyingMobile == old(verifyingMobile) && verifyingNewUser == old(verifyingNewUser)
      ensures storedMobile == old(storedMobile) && newRegistration == old(newRegistration)
    {
      if !AllDigits(value) {
        return;
      }
      otp := otp[index := value];
      errors := ClearError(errors, "otp");
    }

    /** `handleSendOTP`, with the back end's answer as a parameter. A
        network error is treated like success, for the demo. */
    method SendOtp(response: OtpResponse)
      requires Valid() && step == PhoneStep && !isLoading
      modifies this`errors, this`isLoading, this`isNewUser, this`step, this`timer, this`canResend
      ensures Valid()
      ensures !ValidMobile(mobile) ==>
        errors == ValidateMobile(mobile) && step == PhoneStep && timer == old(timer) && isNewUser == old(isNewUser)
      ensures ValidMobile(mobile) ==> isNewUser == !UserExists(mobile)
      ensures ValidMobile(mobile) && !response.Failure? ==>
        step == OtpStep && timer == 30 && !canResend && errors == map[]
      ensures ValidMobile(mobile) && response.Failure? ==>
        step == PhoneStep && timer == old(timer) && canResend == old(canResend)
        && errors == map["mobile" := if response.message != "" then response.message else SendFailed]
      ensures mobile == old(mobile) && otp == old(otp) && !isLoading && authenticated == old(authenticated)
    {
      errors := ValidateMobile(mobile);
      if "mobile" in errors {
        assert !ValidMobile(mobile);
        return;
      }
      assert ValidMobile(mobile);
      isLoading := true;
      isNewUser := !UserExists(mobile);
      match response {
        case Failure(message) =>
          errors := map["mobile" := if message != "" then message else SendFailed];
        case _ =>
          step := OtpStep;
          timer := 30;
          canResend := false;
          errors := map[];
      }
      isLoading := false;
    }

    /** `handleVerifyOTP`: a wrong or incomplete code is reported at once;
        a right one starts the simulated verification, whose timer keeps
        the number and the new-user flag of this moment. */
    method VerifyOtp()
      requires Valid() && step == OtpStep && !isLoading
      modifies this
      ensures Valid()
      ensures errors == ValidateOtp(otp)
      ensures isLoading <==> Concat(otp) == DemoOtp
      ensures step == old(step) && mobile == old(mobile) && otp == old(otp)
      ensures timer == old(timer) && canResend == old(canResend)
      ensures isNewUser == old(isNewUser) && authenticated == old(authenticated)
      ensures isLoading ==> verifyingMobile == mobile && verifyingNewUser == isNewUser
      ensures !isLoading ==> verifyingMobile == old(verifyingMobile) && verifyingNewUser == old(verifyingNewUser)
      ensures storedMobile == old(storedMobile) && newRegistration == old(newRegistration)
    {
      errors := ValidateOtp(otp);
      if "otp" in errors {
        return;
      }
      isLoading := true;
      verifyingMobile := mobile;
      verifyingNewUser := isNewUser;
    }

    /** The verification timer fires. Nothing cancels it, so it may fire
        after "Change Number" has gone back to the phone step. It signs in
        with the number captured when Verify was pressed, which was
        validated on the phone step, so the sign-in always succeeds. */
    method CompleteVerification()
      requires Valid() && isLoading
      modifies this
      ensures Valid()
      ensures authenticated && !isLoading
      ensures storedMobile == old(verifyingMobile)
      ensures newRegistration == (old(newRegistration) || old(verifyingNewUser))
      ensures errors == old(errors)
      ensures step == old(step) && mobile == old(mobile) && otp == old(otp)
      ensures timer == old(timer) && canResend == old(canResend) && isNewUser == old(isNewUser)
      ensures verifyingMobile == old(verifyingMobile) && verifyingNewUser == old(verifyingNewUser)
    {
      var normalized := NormalizePhone(verifyingMobile);
      if normalized == KnownClientPhone || |normalized| == 10 {
        authenticated := true;
        storedMobile := verifyingMobile;
        if verifyingNewUser {
          newRegistration := true;
        }
      } else {
        // The number was validated before the code step was reached.
        assert false;
      }
      isLoading := false;
    }

    /** One second of the resend countdown. */
    method Tick()
      requires Valid() && timer > 0
      modifies this
      ensures Valid()
      ensures timer == old(timer) - 1
      ensures canResend == (old(canResend) || timer == 0)
      ensures step == old(step) && mobile == old(mobile) && otp == old(otp) && errors == old(errors)
      ensures isLoading == old(isLoading) && isNewUser == old(isNewUser) && authenticated == old(authenticated)
      ensures verifyingMobile == old(verifyingMobile) && verifyingNewUser == old(verifyingNewUser)
      ensures storedMobile == old(storedMobile) && newRegistration == old(newRegistration)
    {
      timer := timer - 1;
      if timer == 0 {
        canResend := true;
      }
    }

    /** `handleResendOTP`: the link is shown once the countdown is over and
        is disabled while loading. */
    method ResendOtp(response: OtpResponse)
      requires Valid() && step == OtpStep && timer == 0 && !isLoading
      modifies this
      ensures Valid()
      ensures !response.Failure? ==> timer == 30 && !canResend && otp == EmptyOtp() && errors == map[]
      ensures response.Failure? ==>
        timer == 0 && canResend && otp == old(otp)
        && errors == map["otp" := if response.message != "" then response.message else ResendFailed]
      ensures step == old(step) && mobile == old(mobile) && !isLoading
      ensures isNewUser == old(isNewUser) && authenticated == old(authenticated)
      ensures verifyingMobile == old(verifyingMobile) && verifyingNewUser == old(verifyingNewUser)
      ensures storedMobile == old(storedMobile) && newRegistration == old(newRegistration)
    {
      if !canResend {
        assert false;
        return;
      }
      match response
      case Failure(message) =>
        errors := map["otp" := if message != "" then message else ResendFailed];
      case _ =>
        timer := 30;
        canResend := false;
        otp := EmptyOtp();
        errors := map[];
    }

    /** `handleBackToPhone`. The countdown effect runs again only when the
        timer actually changes, so a resend is allowed afterwards exactly
        when the countdown had not finished. */
    method BackToPhone()
      requires Valid()
      modifies this
      ensures Valid()
      ensures step == PhoneStep && timer == 0 && !isNewUser && otp == EmptyOtp() && errors == map[]
      ensures canResend == (old(timer) > 0)
      ensures mobile == old(mobile) && isLoading == old(isLoading) && authenticated == old(authenticated)
      ensures verifyingMobile == old(verifyingMobile) && verifyingNewUser == old(verifyingNewUser)
      ensures storedMobile == old(storedMobile) && newRegistration == old(newRegistration)
    {
      var countdownWasRunning := timer > 0;
      step := PhoneStep;
      timer := 0;
      canResend := false;
      isNewUser := false;
      otp := EmptyOtp();
      errors := map[];
      if countdownWasRunning {
        canResend := true;
      }
    }
  }

  /** The known number passes `validateMobile`. */
  lemma KnownPhoneValid()
    ensures ValidMobile(KnownClientPhone)
  {
    assert AllDigits(KnownClientPhone);
    TenDigitsUnchanged(KnownClientPhone);
  }

  /** The boxes typed one digit each with the demo code. */
  function DemoBoxes(): (r: seq<string>)
    ensures |r| == 6 && Concat(r) == DemoOtp
    ensures forall i :: 0 <= i < 6 ==> |r[i]| == 1 && AllDigits(r[i])
  {
    var r := ["1", "2", "3", "4", "5", "6"];
    assert Concat(r[5..]) == "6";
    assert Concat(r[4..]) == "56";
    assert Concat(r[3..]) == "456";
    assert Concat(r[2..]) == "3456";
    assert Concat(r[1..]) == "23456";
    r
  }

  /** The known number typed and the code requested. */
  method RequestCodeForKnownNumber() returns (form: LoginForm)
    ensures fresh(form) && form.Valid()
    ensures form.step == OtpStep && !form.isLoading && form.mobile == KnownClientPhone
  {
    form := new LoginForm();
    form.SetMobile(KnownClientPhone);
    KnownPhoneValid();
    form.SendOtp(Success);
  }

  /** The demo code typed box by box. */
  method TypeDemoCode(form: LoginForm)
    requires form.Valid() && form.step == OtpStep && !form.isLoading
    modifies form
    ensures form.Valid() && form.step == OtpStep && !form.isLoading
    ensures form.otp == DemoBoxes() && form.mobile == old(form.mobile)
  {
    var digits := DemoBoxes();
    var i := 0;
    while i < 6
      invariant 0 <= i <= 6
      invariant form.Valid() && form.step == OtpStep && !form.isLoading
      invariant form.mobile == old(form.mobile)
      invariant forall j :: 0 <= j < i ==> form.otp[j] == digits[j]
    {
      form.ChangeOtpDigit(i, digits[i]);
      i := i + 1;
    }
    assert form.otp == digits;
  }

  /** Sign-in with the known number as far as pressing Verify with the
      demo code. */
  method StartVerifyingKnownNumber() returns (form: LoginForm)
    ensures fresh(form) && form.Valid()
    ensures form.step == OtpStep && form.isLoading && form.verifyingMobile == KnownClientPhone
  {
    form := RequestCodeForKnownNumber();
    TypeDemoCode(form);
    form.VerifyOtp();
  }

  /** Pressing "Change Number" while the right code is being verified
      does not stop the sign-in: the verification timer still fires on the
      phone step and stores the number captured when Verify was pressed,
      not the one typed since. */
  method ChangeNumberDuringVerification() returns (signedIn: bool, step: LoginStep, stored: string, typed: string)
    ensures signedIn && step == PhoneStep
    ensures stored == KnownClientPhone && typed == "9123456789" && stored != typed
  {
    var form := StartVerifyingKnownNumber();
    form.BackToPhone();
    form.SetMobile("9123456789");
    form.CompleteVerification();
    signedIn, step, stored, typed := form.authenticated, form.step, form.storedMobile, form.mobile;
  }

  /** Six boxes of one character each make a six-character code, and a
      code of any other length means some box is empty; so the demo code
      is only accepted with every box filled. */
  lemma FullBoxesMakeACode(otp: seq<string>)
    requires |otp| == 6 && forall i :: 0 <= i < 6 ==> |otp[i]| <= 1
    ensures |Concat(otp)| == 6 <==> forall i :: 0 <= i < 6 ==> |otp[i]| == 1
    ensures Concat(otp) == DemoOtp ==> forall i :: 0 <= i < 6 ==> |otp[i]| == 1
  {
    ConcatLength(otp);
  }
}
