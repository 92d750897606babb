/** Mobile numbers as the login and registration forms read them: the
    digits only, with an Indian country code 91 dropped. */
module Phone {
  import opened Text

  /** `phone.replace(/\D/g, '')`: the digits of `s`, in order. */
  function DigitsOnly(s: string): (r: string)
    ensures |r| <= |s|
  {
    if s == [] then []
    else (if IsDigit(s[0]) then [s[0]] else []) + DigitsOnly(s[1..])
  }

  /** Only digits are kept. */
  lemma {:induction false} DigitsOnlyAllDigits(s: string)
    ensures AllDigits(DigitsOnly(s))
  {
    if s != [] {
      DigitsOnlyAllDigits(s[1..]);
    }
  }

  lemma {:induction false} DigitsOnlyConcat(a: string, b: string)
    ensures DigitsOnly(a + b) == DigitsOnly(a) + DigitsOnly(b)
  {
    if a == [] {
      assert a + b == b;
    } else {
      var ab := a + b;
      assert ab[0] == a[0];
      assert ab[1..] == a[1..] + b;
      DigitsOnlyConcat(a[1..], b);
      var keep := if IsDigit(a[0]) then [a[0]] else [];
      calc {
        DigitsOnly(ab);
        keep + DigitsOnly(a[1..] + b);
        keep + (DigitsOnly(a[1..]) + DigitsOnly(b));
        (keep + DigitsOnly(a[1..])) + DigitsOnly(b);
        DigitsOnly(a) + DigitsOnly(b);
      }
    }
  }

  /** A string of digits has nothing to strip. */
  lemma {:induction false} DigitsOnlyOfDigits(s: string)
    requires AllDigits(s)
    ensures DigitsOnly(s) == s
  {
    if s != [] {
      DigitsOnlyOfDigits(s[1..]);
    }
  }

  const CountryCode: string := "91"

  /** `normalizePhoneNumber`: keep the digits, and drop a leading country
      code 91 from a twelve-digit result. */
  function NormalizePhone(phone: string): (r: string)
    ensures AllDigits(r)
    ensures phone == "" ==> r == ""
  {
    DigitsOnlyAllDigits(phone);
    var d := DigitsOnly(phone);
    if |d| == 12 && d[..2] == CountryCode then d[2..] else d
  }

  /** Normalising twice is normalising once. */
  lemma NormalizeIdempotent(phone: string)
    ensures NormalizePhone(NormalizePhone(phone)) == NormalizePhone(phone)
  {
    var r := NormalizePhone(phone);
    DigitsOnlyOfDigits(r);
  }

  /** What the normaliser keeps: the digits as they are, unless they are
      twelve and start with 91, in which case the last ten. */
  lemma NormalizeCases(phone: string)
    ensures |DigitsOnly(phone)| != 12 ==> NormalizePhone(phone) == DigitsOnly(phone)
    ensures |DigitsOnly(phone)| == 12 && DigitsOnly(phone)[..2] == CountryCode ==>
      |NormalizePhone(phone)| == 10 && CountryCode + NormalizePhone(phone) == DigitsOnly(phone)
  {
    var d := DigitsOnly(phone);
    if |d| == 12 && d[..2] == CountryCode {
      assert d == d[..2] + d[2..];
    }
  }

  lemma CountryCodeDigits()
    ensures DigitsOnly("+91 ") == "91"
  {
  }

  lemma SpaceDigits()
    ensures DigitsOnly(" ") == ""
  {
  }

  /** The digits of a number written as a prefix, a group, a separator
      and a group. */
  lemma {:induction false} JoinedDigits(prefix: string, a: string, sep: string, b: string)
    requires AllDigits(a) && AllDigits(b)
    ensures DigitsOnly(prefix + a + sep + b) == DigitsOnly(prefix) + a + DigitsOnly(sep) + b
  {
    var head, tail := prefix + a, sep + b;
    assert prefix + a + sep + b == head + tail;
    DigitsOnlyConcat(head, tail);
    DigitsOnlyConcat(prefix, a);
    DigitsOnlyConcat(sep, b);
    DigitsOnlyOfDigits(a);
    DigitsOnlyOfDigits(b);
  }

  lemma FormattedDigits(a: string, b: string)
    requires AllDigits(a) && AllDigits(b)
    ensures DigitsOnly("+91 " + a + " " + b) == "91" + (a + b)
  {
    JoinedDigits("+91 ", a, " ", b);
    CountryCodeDigits();
    SpaceDigits();
  }

  /** A number written in the usual "+91 98765 43210" form normalises to its
      ten digits. */
  lemma FormattedNumberNormalizes(a: string, b: string)
    requires AllDigits(a) && AllDigits(b) && |a| + |b| == 10
    ensures NormalizePhone("+91 " + a + " " + b) == a + b
  {
    FormattedDigits(a, b);
    var d := DigitsOnly("+91 " + a + " " + b);
    assert d[..2] == CountryCode;
    assert d[2..] == a + b;
  }


  /** Ten digits are already a normalised number. */
  lemma TenDigitsUnchanged(s: string)
    requires AllDigits(s) && |s| == 10
    ensures NormalizePhone(s) == s
  {
    DigitsOnlyOfDigits(s);
  }
}
