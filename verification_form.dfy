/** The contact verification form: an e-mail and a mobile channel, each with
    a code field, a send button locked by a one-minute countdown, and a
    demo code that verifies it. */
module ContactVerification {
  import opened Text

  /** `formatTime`: whole minutes, a colon, and the remaining seconds on
      two digits; under ten minutes it reads `m:ss`. */
  function FormatTime(seconds: nat): (r: string)
    ensures |r| >= 4 && r[|r| - 3] == ':'
    ensures seconds < 600 ==> |r| == 4
  {
    NatToStringBelowHundred(seconds % 60);
    NatToString(seconds / 60) + ":" + PadStart(NatToString(seconds % 60), 2, '0')
  }

  lemma {:induction false} NatToStringBelowHundred(n: nat)
    requires n < 100
    ensures |NatToString(n)| <= 2
  {
    if n >= 10 {
      assert NatToString(n / 10) == [DigitChar(n / 10)];
    }
  }

  /** The displayed time reads back as the number of seconds: the part
      before the colon counts minutes, the two digits after it seconds. */
  lemma FormatTimeReadsBack(seconds: nat)
    ensures var r := FormatTime(seconds);
      && |r| >= 4 && r[|r| - 3] == ':'
      && AllDigits(r[..|r| - 3]) && AllDigits(r[|r| - 2..])
      && DigitsValue(r[..|r| - 3]) * 60 + DigitsValue(r[|r| - 2..]) == seconds
  {
    var mins, secs := NatToString(seconds / 60), NatToString(seconds % 60);
    NatToStringBelowHundred(seconds % 60);
    var padded := PadStart(secs, 2, '0');
    assert padded == Repeat('0', 2 - |secs|) + secs;
    LeadingZerosValue(2 - |secs|, secs);
    NatToStringRoundTrip(seconds / 60);
    NatToStringRoundTrip(seconds % 60);
    var r := FormatTime(seconds);
    assert r == mins + ":" + padded;
    assert r[..|r| - 3] == mins;
    assert r[|r| - 2..] == padded;
  }

  lemma FormatTimeExamples()
    ensures FormatTime(60) == "1:00"
    ensures FormatTime(5) == "0:05"
  {
    assert NatToString(1) == "1" && NatToString(0) == "0" && NatToString(5) == "5";
    assert PadStart("0", 2, '0') == "00";
    assert PadStart("5", 2, '0') == "05";
  }

  datatype Channel = Email | Mobile

  /** The demo code each channel accepts. */
  function DemoCode(c: Channel): string {
    match c
    case Email => "123456"
    case Mobile => "654321"
  }

  const ResendSeconds: nat := 60

  class VerificationForm {
    var emailOtp: string
    var mobileOtp: string
    var emailTimer: nat
    var mobileTimer: nat
    var emailVerified: bool
    var mobileVerified: bool
    /** The flags reported to the page through `onInputChange`. */
    var reportedEmail: bool
    var reportedMobile: bool

    /** A verified channel has been reported, and only a verified one. */
    ghost predicate Valid()
      reads this
    {
      reportedEmail == emailVerified && reportedMobile == mobileVerified
    }

    constructor()
      ensures Valid()
      ensures emailOtp == "" && mobileOtp == "" && emailTimer == 0 && mobileTimer == 0
      ensures !emailVerified && !mobileVerified
    {
      emailOtp, mobileOtp := "", "";
      emailTimer, mobileTimer := 0, 0;
      emailVerified, mobileVerified := false, false;
      reportedEmail, reportedMobile := false, false;
    }

    function Code(c: Channel): string
      reads this
    {
      match c
      case Email => emailOtp
      case Mobile => mobileOtp
    }

    function Timer(c: Channel): nat
      reads this
    {
      match c
      case Email => emailTimer
      case Mobile => mobileTimer
    }

    function Verified(c: Channel): bool
      reads this
    {
      match c
      case Email => emailVerified
      case Mobile => mobileVerified
    }

    /** The send button is locked while its countdown runs. */
    predicate SendEnabled(c: Channel)
      reads this
    {
      Timer(c) == 0
    }

    /** The verify button needs `code.length` to be exactly 6, counted in
        UTF-16 code units. */
    predicate VerifyEnabled(c: Channel)
      reads this
    {
      Utf16Length(Code(c)) == 6
    }

    /** Typing into a code field, which `maxLength` limits to six UTF-16
        code units; the field is hidden once its channel is verified. */
    method SetCode(c: Channel, text: string)
      requires Valid() && !Verified(c) && Utf16Length(text) <= 6
      modifies this
      ensures Valid()
      ensures Code(c) == text
      ensures forall d :: d != c ==> Code(d) == old(Code(d))
      ensures forall d :: Timer(d) == old(Timer(d)) && Verified(d) == old(Verified(d))
    {
      match c
      case Email => emailOtp := text;
      case Mobile => mobileOtp := text;
    }

    /** `sendEmailOtp` / `sendMobileOtp`: the channel's countdown starts at
        a minute. */
    method Send(c: Channel)
      requires Valid() && !Verified(c) && SendEnabled(c)
      modifies this
      ensures Valid()
      ensures Timer(c) == ResendSeconds
      ensures forall d :: d != c ==> Timer(d) == old(Timer(d))
      ensures forall d :: Code(d) == old(Code(d)) && Verified(d) == old(Verified(d))
    {
      match c
      case Email => emailTimer := ResendSeconds;
      case Mobile => mobileTimer := ResendSeconds;
    }

    /** One second of a channel's countdown. */
    method Tick(c: Channel)
      requires Valid() && Timer(c) > 0
      modifies this
      ensures Valid()
      ensures Timer(c) == old(Timer(c)) - 1
      ensures forall d :: d != c ==> Timer(d) == old(Timer(d))
      ensures forall d :: Code(d) == old(Code(d)) && Verified(d) == old(Verified(d))
    {
      match c
      case Email => emailTimer := emailTimer - 1;
      case Mobile => mobileTimer := mobileTimer - 1;
    }

    /** `verifyEmailOtp` / `verifyMobileOtp`: the channel is verified, and
        reported, exactly when its code is the demo code; a wrong code only
        raises an alert. */
    method Verify(c: Channel)
      requires Valid() && !Verified(c) && VerifyEnabled(c)
      modifies this
      ensures Valid()
      ensures Verified(c) <==> old(Code(c)) == DemoCode(c)
      ensures forall d :: d != c ==> Verified(d) == old(Verified(d))
      ensures forall d :: Code(d) == old(Code(d)) && Timer(d) == old(Timer(d))
    {
      if Code(c) == DemoCode(c) {
        match c
        case Email =>
          emailVerified := true;
          reportedEmail := true;
        case Mobile =>
          mobileVerified := true;
          reportedMobile := true;
      }
    }
  }

  /** Five characters can fill a code field: "1234😀" is six code units
      long, so the field takes it and the verify button is enabled. */
  method AstralCodeEnablesVerify() returns (enabled: bool, characters: nat)
    ensures enabled && characters == 5
  {
    var code := "1234\U{1F600}";
    assert Utf16Length(code[4..]) == 2;
    var form := new VerificationForm();
    form.SetCode(Email, code);
    enabled := form.VerifyEnabled(Email);
    characters := |form.Code(Email)|;
  }

  /** The two channels accept different codes, so no one code verifies
      both. */
  lemma DemoCodesDiffer()
    ensures DemoCode(Email) != DemoCode(Mobile)
  {
    assert DemoCode(Email)[0] != DemoCode(Mobile)[0];
  }
}
