/** The account credentials form: a password-strength counter over five
    criteria, its label and bar colour, and the requirements checklist. */
module Credentials {
  import opened Text

  /** `/[^A-Za-z0-9]/`: anything that is not an ASCII letter or digit. */
  predicate IsSpecial(c: char) {
    !IsAlphanumeric(c)
  }

  predicate HasUpper(s: string) { exists i :: 0 <= i < |s| && IsUpper(s[i]) }
  predicate HasLower(s: string) { exists i :: 0 <= i < |s| && IsLower(s[i]) }
  predicate HasDigit(s: string) { exists i :: 0 <= i < |s| && IsDigit(s[i]) }
  predicate HasSpecial(s: string) { exists i :: 0 <= i < |s| && IsSpecial(s[i]) }

  const MinLength: nat := 8

  /** The requirements checklist, in display order: at least 8 characters,
      an upper-case letter, a lower-case letter, a digit, a special
      character. The length is `password.length`, in UTF-16 code units, so
      a character above U+FFFF counts twice. */
  function Checklist(password: string): (r: seq<bool>)
    ensures |r| == 5
    ensures password == "" ==> forall i :: 0 <= i < 5 ==> !r[i]
    ensures |password| >= MinLength ==> r[0]
    ensures r[0] && r[1] && r[2] && r[3] && r[4] ==> Utf16Length(password) >= MinLength
  {
    [Utf16Length(password) >= MinLength, HasUpper(password), HasLower(password), HasDigit(password), HasSpecial(password)]
  }

  /** How many items of a checklist are marked met. */
  function CountMet(items: seq<bool>): (n: nat)
    ensures n <= |items|
  {
    if items == [] then 0 else (if items[0] then 1 else 0) + CountMet(items[1..])
  }

  function Point(b: bool): nat { if b then 1 else 0 }

  /** A five-item checklist, counted item by item. */
  lemma CountMetFive(items: seq<bool>)
    requires |items| == 5
    ensures CountMet(items) == Point(items[0]) + Point(items[1]) + Point(items[2]) + Point(items[3]) + Point(items[4])
  {
    forall k | 0 <= k < 5
      ensures CountMet(items[k..]) == Point(items[k]) + CountMet(items[k + 1..])
    {
      assert items[k..][1..] == items[k + 1..];
    }
    assert items[5..] == [];
    assert items[0..] == items;
  }

  /** `calculatePasswordStrength`: one point per criterion met. */
  method CalculateStrength(password: string) returns (strength: nat)
    ensures strength == CountMet(Checklist(password))
    ensures strength <= 5
  {
    strength := 0;
    if Utf16Length(password) >= MinLength {
      strength := strength + 1;
    }
    if HasUpper(password) {
      strength := strength + 1;
    }
    if HasLower(password) {
      strength := strength + 1;
    }
    if HasDigit(password) {
      strength := strength + 1;
    }
    if HasSpecial(password) {
      strength := strength + 1;
    }
    CountMetFive(Checklist(password));
  }

  /** The strength of a password, as the checklist shows it. */
  function Strength(password: string): nat {
    CountMet(Checklist(password))
  }

  lemma {:induction false} CountMetPointwise(a: seq<bool>, b: seq<bool>)
    requires |a| == |b|
    requires forall i :: 0 <= i < |a| && a[i] ==> b[i]
    ensures CountMet(a) <= CountMet(b)
  {
    if a != [] {
      CountMetPointwise(a[1..], b[1..]);
    }
  }

  /** Typing one more character never lowers the strength: every criterion
      met before is still met. */
  lemma StrengthMonotone(password: string, c: char)
    ensures Strength(password + [c]) >= Strength(password)
  {
    var p := password + [c];
    assert forall i :: 0 <= i < |password| ==> p[i] == password[i];
    Utf16LengthConcat(password, [c]);
    CountMetPointwise(Checklist(password), Checklist(p));
  }

  /** A long password with upper and lower case, digits and a special
      character meets every criterion. */
  lemma AllCriteriaGiveFive(password: string)
    requires Utf16Length(password) >= MinLength
    requires HasUpper(password) && HasLower(password) && HasDigit(password) && HasSpecial(password)
    ensures Strength(password) == 5
  {
    CountMetFive(Checklist(password));
  }

  /** Seven characters can meet the length criterion: "abcdef😀" is eight
      code units long, so it meets length, lower case and special. */
  lemma AstralCharacterCountsTwice(p: string)
    requires p == "abcdef\U{1F600}"
    ensures |p| == 7
    ensures Strength(p) == 3
  {
    assert Utf16Length(p) == 8 by {
      var letters, emoji := p[..6], p[6..];
      assert p == letters + emoji;
      assert Utf16Length(letters) == 6;
      assert Utf16Length(emoji) == 2;
      Utf16LengthConcat(letters, emoji);
    }
    assert !HasUpper(p) && !HasDigit(p) by {
      forall i | 0 <= i < |p| ensures !IsUpper(p[i]) && !IsDigit(p[i]) {}
    }
    assert HasLower(p) && HasSpecial(p) by {
      assert IsLower(p[0]) && IsSpecial(p[6]);
    }
    CountMetFive(Checklist(p));
  }

  /** `getStrengthText`: up to two criteria is weak, three medium, four or
      five strong. */
  function StrengthText(strength: nat): (r: string)
    ensures r == "Weak" <==> strength <= 2
    ensures r == "Medium" <==> strength == 3
    ensures r == "Strong" <==> strength >= 4
  {
    if strength <= 2 then "Weak" else if strength <= 3 then "Medium" else "Strong"
  }

  /** `getStrengthColor`: red while weak, amber at three criteria, green
      from four. A lookup table parallel to `StrengthText`, on the same
      thresholds. */
  function StrengthColor(strength: nat): (r: string)
    ensures r == "bg-error" <==> strength <= 2
    ensures r == "bg-warning" <==> strength == 3
    ensures r == "bg-success" <==> strength >= 4
  {
    if strength <= 2 then "bg-error" else if strength <= 3 then "bg-warning" else "bg-success"
  }

  /** The label and the bar colour follow the same thresholds. */
  lemma LabelMatchesColor(strength: nat)
    ensures StrengthText(strength) == "Weak" <==> StrengthColor(strength) == "bg-error"
    ensures StrengthText(strength) == "Medium" <==> StrengthColor(strength) == "bg-warning"
    ensures StrengthText(strength) == "Strong" <==> StrengthColor(strength) == "bg-success"
    ensures StrengthText(strength) == "Weak" <==> strength <= 2
    ensures StrengthText(strength) == "Strong" <==> strength >= 4
  {
  }

  class AccountCredentialsForm {
    /** The page's form data as this form has reported it. */
    var values: map<string, string>
    var passwordStrength: nat
    /** Whether the password has been typed in this form yet. */
    ghost var passwordEdited: bool

    function Password(): string
      reads this
    {
      if "password" in values then values["password"] else ""
    }

    /** Once the password has been typed, the stored strength is the
        number of checklist items shown as met. */
    ghost predicate Valid()
      reads this
    {
      passwordEdited ==> passwordStrength == Strength(Password())
    }

    constructor(formData: map<string, string>)
      ensures Valid()
      ensures values == formData && passwordStrength == 0
    {
      values := formData;
      passwordStrength := 0;
      passwordEdited := false;
    }

    /** `handleChange(field)`: the value goes to the page; the strength is
        recomputed only for the password field. */
    method HandleChange(field: string, value: string)
      requires Valid()
      modifies this
      ensures Valid()
      ensures values == old(values)[field := value]
      ensures field == "password" ==> passwordStrength == Strength(value)
      ensures field != "password" ==> passwordStrength == old(passwordStrength)
    {
      values := values[field := value];
      if field == "password" {
        passwordStrength := CalculateStrength(value);
        passwordEdited := true;
      }
    }
  }
}
