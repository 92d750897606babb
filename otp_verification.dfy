/** The registration page's mobile verification step: six one-digit boxes
    that verify themselves once full, a simulated check against the demo
    code, and a resend countdown. */
module MobileVerification {
  import opened Common
  import opened Text
  import opened Login

  const MockOtp: string := "123456"
  const ResendSeconds: nat := 30

  class OtpVerificationForm {
    var otp: seq<string>
    var timer: nat
    var canResend: bool
    var isVerified: bool
    var isLoading: bool
    /** The code the running verification will check. */
    var pending: Option<string>
    /** Whether `mobileVerified = true` has been reported to the page. */
    var mobileVerified: bool

    /** Six boxes; resending is allowed exactly when the countdown is over;
        a verification runs exactly while a six-character code is pending,
        and never after success; success has been reported. */
    ghost predicate Valid()
      reads this
    {
      && |otp| == 6
      && (canResend <==> timer == 0)
      && (isLoading <==> pending.Some?)
      && (pending.Some? ==> |pending.value| == 6 && !isVerified)
      && (isVerified ==> mobileVerified)
    }

    constructor()
      ensures Valid()
      ensures otp == EmptyOtp() && timer == ResendSeconds && !canResend
      ensures !isVerified && !isLoading && pending.None? && !mobileVerified
    {
      otp := EmptyOtp();
      timer := ResendSeconds;
      canResend := false;
      isVerified := false;
      isLoading := false;
      pending := None;
      mobileVerified := false;
    }

    /** `handleVerifyOTP(code)`: only a six-character code starts the
        simulated check. */
    method VerifyCode(code: string)
      requires Valid() && !isLoading && !isVerified
      modifies this
      ensures Valid()
      ensures |code| == 6 ==> isLoading && pending == Some(code)
      ensures |code| != 6 ==> !isLoading && pending.None?
      ensures otp == old(otp) && timer == old(timer) && canResend == old(canResend)
      ensures isVerified == old(isVerified) && mobileVerified == old(mobileVerified)
    {
      if |code| != 6 {
        return;
      }
      isLoading := true;
      pending := Some(code);
    }

    /** `handleOTPChange`: a non-digit is ignored; otherwise the box takes
        the value and a full code is verified at once. The boxes are
        disabled while a check runs and gone once verified. */
    method ChangeOtpDigit(index: int, value: string)
      requires Valid() && !isLoading && !isVerified
      requires 0 <= index < 6 && |value| <= 1
      modifies this
      ensures Valid()
      ensures !AllDigits(value) ==> otp == old(otp) && !isLoading
      ensures AllDigits(value) ==> otp == old(otp)[index := value]
      ensures isLoading <==> AllDigits(value) && |Concat(otp)| == 6
      ensures isLoading ==> pending == Some(Concat(otp))
      ensures timer == old(timer) && canResend == old(canResend)
      ensures isVerified == old(isVerified) && mobileVerified == old(mobileVerified)
    {
      if !AllDigits(value) {
        return;
      }
      otp := otp[index := value];
      var code := Concat(otp);
      if |code| == 6 {
        VerifyCode(code);
      }
    }

    /** The manual Verify button, shown while six characters are entered
        and no check runs. */
    method Verify()
      requires Valid() && !isLoading && !isVerified && |Concat(otp)| == 6
      modifies this
      ensures Valid()
      ensures isLoading && pending == Some(Concat(otp))
      ensures otp == old(otp) && timer == old(timer) && canResend == old(canResend)
      ensures isVerified == old(isVerified) && mobileVerified == old(mobileVerified)
    {
      VerifyCode(Concat(otp));
    }

    /** The simulated check finishes: the demo code verifies the number and
        reports it; any other code clears the six boxes. */
    method CompleteVerification()
      requires Valid() && isLoading
      modifies this
      ensures Valid()
      ensures !isLoading && pending.None?
      ensures old(pending.value) == MockOtp ==> isVerified && mobileVerified && otp == old(otp)
      ensures old(pending.value) != MockOtp ==>
        !isVerified && otp == EmptyOtp() && mobileVerified == old(mobileVerified)
      ensures timer == old(timer) && canResend == old(canResend)
    {
      if pending.value == MockOtp {
        isVerified := true;
        mobileVerified := true;
      } else {
        otp := EmptyOtp();
      }
      isLoading := false;
      pending := None;
    }

    /** One second of the countdown; reaching zero allows a resend. */
    method Tick()
      requires Valid() && timer > 0
      modifies this
      ensures Valid()
      ensures timer == old(timer) - 1 && (canResend <==> timer == 0)
      ensures otp == old(otp) && isVerified == old(isVerified) && isLoading == old(isLoading)
      ensures pending == old(pending) && mobileVerified == old(mobileVerified)
    {
      timer := timer - 1;
      canResend := timer == 0;
    }

    /** `handleResendOTP`: nothing before the countdown is over; then the
        countdown restarts and the boxes are cleared. */
    method ResendOtp()
      requires Valid()
      modifies this
      ensures Valid()
      ensures !old(canResend) ==> otp == old(otp) && timer == old(timer) && canResend == old(canResend)
      ensures old(canResend) ==> timer == ResendSeconds && !canResend && otp == EmptyOtp()
      ensures isVerified == old(isVerified) && isLoading == old(isLoading)
      ensures pending == old(pending) && mobileVerified == old(mobileVerified)
    {
      if !canResend {
        return;
      }
      timer := ResendSeconds;
      canResend := false;
      otp := EmptyOtp();
    }
  }
}
