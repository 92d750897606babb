/** The add-client form: six fields, the PAN and UPI id formats, the
    field-by-field validation and the submission, which upper-cases the
    PAN. */
module AddClient {
  import opened Common
  import opened Text

  // ---------------------------------------------------------------------
  // PAN: five letters, four digits, one letter.

  /** `/^[A-Z]{5}[0-9]{4}[A-Z]{1}$/`. */
  function IsPan(s: string): (r: bool)
    ensures r ==> |s| == 10 && forall i :: 0 <= i < |s| ==> IsAlphanumeric(s[i])
  {
    && |s| == 10
    && (forall i :: 0 <= i < 5 ==> IsUpper(s[i]))
    && (forall i :: 5 <= i < 9 ==> IsDigit(s[i]))
    && IsUpper(s[9])
  }

  /** The PAN test applied to the upper-cased input, so lower-case letters
      are accepted. */
  function PanAccepted(pan: string): (r: bool)
    ensures IsPan(pan) ==> r
    ensures r ==> |pan| == 10 && !IsSpace(pan[0])
  {
    IsPan(Upper(pan))
  }

  /** A PAN typed in lower case is accepted, and an accepted PAN is ten
      characters of letters and digits in the pattern's places. */
  lemma PanExample()
    ensures PanAccepted("abcde1234f")
    ensures !PanAccepted("ABCDE12345")
  {
    var u := Upper("abcde1234f");
    assert u == "ABCDE1234F";
  }

  /** Upper-casing an accepted PAN gives a PAN that passes the pattern as
      it stands, and upper-casing it again changes nothing. */
  lemma UpperPanIsPan(pan: string)
    requires PanAccepted(pan)
    ensures IsPan(Upper(pan)) && PanAccepted(Upper(pan))
    ensures Upper(Upper(pan)) == Upper(pan)
  {
    var u := Upper(pan);
    assert forall i :: 0 <= i < |u| ==> UpperChar(u[i]) == u[i];
  }

  // ---------------------------------------------------------------------
  // UPI ids: `/^[a-zA-Z0-9.\-_]{2,256}@[a-zA-Z][a-zA-Z]{2,64}$/`.

  predicate IsUpiHandleChar(c: char) {
    IsAlphanumeric(c) || c == '.' || c == '-' || c == '_'
  }

  /** The part before `@`: 2 to 256 letters, digits, dots, hyphens and
      underscores. */
  predicate HandleOk(t: string) {
    2 <= |t| <= 256 && forall i :: 0 <= i < |t| ==> IsUpiHandleChar(t[i])
  }

  /** The part after `@`: a letter and then 2 to 64 more, 3 to 65 letters in
      all. */
  predicate ProviderOk(t: string) {
    3 <= |t| <= 65 && forall i :: 0 <= i < |t| ==> IsLetter(t[i])
  }

  /** The pattern read declaratively: the id splits at some `@` into a
      valid handle and a valid provider. */
  predicate UpiSpec(s: string) {
    exists k :: 0 <= k < |s| && s[k] == '@' && HandleOk(s[..k]) && ProviderOk(s[k + 1..])
  }

  /** The matcher: split at the first `@` and check both parts. */
  function MatchUpi(s: string): (r: bool)
    ensures r ==> 6 <= |s| <= 322
    ensures r ==> '@' in s && !IsSpace(s[0])
  {
    match IndexOfChar(s, '@')
    case None => false
    case Some(k) => HandleOk(s[..k]) && ProviderOk(s[k + 1..])
  }

  /** Splitting at the first `@` loses nothing: a handle never holds an
      `@`, so any split the pattern allows is the first one. */
  lemma MatchUpiCorrect(s: string)
    ensures MatchUpi(s) <==> UpiSpec(s)
  {
    if UpiSpec(s) {
      var k :| 0 <= k < |s| && s[k] == '@' && HandleOk(s[..k]) && ProviderOk(s[k + 1..]);
      var first := IndexOfChar(s, '@');
      assert first.Some?;
      if first.value < k {
        assert false;
      }
      assert first.value == k;
    }
  }

  lemma UpiExamples()
    ensures UpiSpec("ab@okicici")
    ensures !UpiSpec("a@okicici")
    ensures !UpiSpec("ab@ok")
  {
    var s := "ab@okicici";
    assert s[2] == '@' && s[..2] == "ab" && s[3..] == "okicici";
    MatchUpiCorrect("a@okicici");
    MatchUpiCorrect("ab@ok");
    assert IndexOfChar("a@okicici", '@') == Some(1);
    assert IndexOfChar("ab@ok", '@') == Some(2);
    assert "ab@ok"[3..] == "ok";
  }

  // ---------------------------------------------------------------------
  // The form

  datatype FormField = AccountType | ApplicantName | PanNumber | ClientId | UpiId | BankDetails

  datatype ClientFormData = ClientFormData(
    accountType: string,
    applicantName: string,
    panNumber: string,
    clientId: string,
    upiId: string,
    bankDetails: string)

  const EmptyForm: ClientFormData := ClientFormData("", "", "", "", "", "")

  function Get(d: ClientFormData, f: FormField): string {
    match f
    case AccountType => d.accountType
    case ApplicantName => d.applicantName
    case PanNumber => d.panNumber
    case ClientId => d.clientId
    case UpiId => d.upiId
    case BankDetails => d.bankDetails
  }

  /** `{ ...prev, [field]: value }`. */
  function With(d: ClientFormData, f: FormField, value: string): (r: ClientFormData)
    ensures Get(r, f) == value
    ensures forall g :: g != f ==> Get(r, g) == Get(d, g)
  {
    match f
    case AccountType => d.(accountType := value)
    case ApplicantName => d.(applicantName := value)
    case PanNumber => d.(panNumber := value)
    case ClientId => d.(clientId := value)
    case UpiId => d.(upiId := value)
    case BankDetails => d.(bankDetails := value)
  }

  /** The fields in the order `validateForm` checks them. */
  const Fields: seq<FormField> := [AccountType, ApplicantName, PanNumber, ClientId, UpiId, BankDetails]

  lemma EveryFieldChecked(f: FormField)
    ensures f in Fields
  {
    match f
    case AccountType => assert Fields[0] == f;
    case ApplicantName => assert Fields[1] == f;
    case PanNumber => assert Fields[2] == f;
    case ClientId => assert Fields[3] == f;
    case UpiId => assert Fields[4] == f;
    case BankDetails => assert Fields[5] == f;
  }

  /** The message `validateForm` records for a field, if any. */
  function FieldError(d: ClientFormData, f: FormField): (r: Option<string>)
    ensures r.None? ==> Get(d, f) != ""
    ensures Get(d, f) == "" ==> r.Some?
  {
    match f
    case AccountType =>
      if d.accountType == "" then Some("Please select an account type") else None
    case ApplicantName =>
      if Trim(d.applicantName) == "" then Some("Applicant name is required") else None
    case PanNumber =>
      if Trim(d.panNumber) == "" then Some("PAN number is required")
      else if !PanAccepted(d.panNumber) then Some("Invalid PAN format (e.g., ABCDE1234F)")
      else None
    case ClientId =>
      if Trim(d.clientId) == "" then Some("Client ID/Beneficiary number is required") else None
    case UpiId =>
      if Trim(d.upiId) == "" then Some("UPI ID is required")
      else if !MatchUpi(d.upiId) then Some("Invalid UPI ID format")
      else None
    case BankDetails =>
      if d.bankDetails == "" then Some("Please select bank details option") else None
  }

  /** The form passes: a selected account type and bank option, a name and
      client id that are not blank, an accepted PAN and a well-formed UPI
      id. */
  function FormValid(d: ClientFormData): (r: bool)
    ensures r ==> forall f :: Get(d, f) != ""
    ensures r ==> |d.panNumber| == 10
  {
    && d.accountType != "" && d.bankDetails != ""
    && (exists i :: 0 <= i < |d.applicantName| && !IsSpace(d.applicantName[i]))
    && (exists i :: 0 <= i < |d.clientId| && !IsSpace(d.clientId[i]))
    && PanAccepted(d.panNumber)
    && UpiSpec(d.upiId)
  }

  /** An accepted PAN and a well-formed UPI id are never blank. */
  lemma PatternsNotBlank(s: string)
    ensures PanAccepted(s) ==> Trim(s) != ""
    ensures UpiSpec(s) ==> Trim(s) != ""
  {
    TrimEmptyIffBlank(s);
    if PanAccepted(s) {
      assert !IsSpace(s[0]) by {
        assert IsUpper(Upper(s)[0]);
      }
    }
    if UpiSpec(s) {
      var k :| 0 <= k < |s| && s[k] == '@' && HandleOk(s[..k]) && ProviderOk(s[k + 1..]);
      assert s[k] == '@';
    }
  }

  /** A required text field is not blank exactly when some character of
      it is not white space. */
  lemma NotBlank(s: string)
    ensures Trim(s) != "" <==> exists i :: 0 <= i < |s| && !IsSpace(s[i])
  {
    TrimEmptyIffBlank(s);
  }

  /** A name made of a non-breaking space is blank, as `trim` sees it. */
  lemma NoBreakSpaceNameIsBlank(d: ClientFormData)
    requires d.applicantName == "\U{A0}"
    ensures FieldError(d, ApplicantName) == Some("Applicant name is required")
  {
    NotBlank(d.applicantName);
  }

  /** The two pattern fields pass exactly when their pattern matches. */
  lemma PatternFieldsPass(d: ClientFormData)
    ensures FieldError(d, PanNumber).None? <==> PanAccepted(d.panNumber)
    ensures FieldError(d, UpiId).None? <==> UpiSpec(d.upiId)
  {
    PatternsNotBlank(d.panNumber);
    PatternsNotBlank(d.upiId);
    MatchUpiCorrect(d.upiId);
  }

  /** No field error at all exactly when the form passes. */
  lemma NoErrorsIffValid(d: ClientFormData)
    ensures (forall f :: FieldError(d, f).None?) <==> FormValid(d)
  {
    NotBlank(d.applicantName);
    NotBlank(d.clientId);
    PatternFieldsPass(d);
    if FormValid(d) {
      forall f
        ensures FieldError(d, f).None?
      {
        match f
        case AccountType =>
        case ApplicantName =>
        case PanNumber =>
        case ClientId =>
        case UpiId =>
        case BankDetails =>
      }
    } else {
      assert !(FieldError(d, AccountType).None? && FieldError(d, ApplicantName).None?
        && FieldError(d, PanNumber).None? && FieldError(d, ClientId).None?
        && FieldError(d, UpiId).None? && FieldError(d, BankDetails).None?);
    }
  }

  /** What `handleSubmit` passes on: the form with the PAN upper-cased. */
  function Submission(d: ClientFormData): (r: ClientFormData)
    requires FormValid(d)
    ensures IsPan(r.panNumber)
    ensures forall f :: f != PanNumber ==> Get(r, f) == Get(d, f)
  {
    d.(panNumber := Upper(d.panNumber))
  }

  /** The field checks of `validateForm`, run in display order: the map
      holds the message of every field that fails, and no other field. */
  method CollectErrors(d: ClientFormData) returns (found: map<FormField, string>)
    ensures forall f :: f in found <==> FieldError(d, f).Some?
    ensures forall f :: f in found ==> found[f] == FieldError(d, f).value
  {
    found := map[];
    var fields := Fields;
    var i := 0;
    while i < |fields|
      invariant 0 <= i <= |fields|
      invariant forall f :: f in found <==> f in fields[..i] && FieldError(d, f).Some?
      invariant forall f :: f in found ==> found[f] == FieldError(d, f).value
    {
      var e := FieldError(d, fields[i]);
      if e.Some? {
        found := found[fields[i] := e.value];
      }
      assert fields[..i + 1] == fields[..i] + [fields[i]];
      i := i + 1;
    }
    assert fields[..i] == fields;
    forall f
      ensures f in fields
    {
      EveryFieldChecked(f);
    }
  }

  class ClientForm {
    var data: ClientFormData
    var errors: map<FormField, string>
    /** Every record handed to `onSubmit`, in order. */
    var submitted: seq<ClientFormData>

    /** Only forms that pass are ever submitted. */
    ghost predicate Valid()
      reads this
    {
      forall i :: 0 <= i < |submitted| ==> IsPan(submitted[i].panNumber)
    }

    constructor()
      ensures Valid()
      ensures data == EmptyForm && errors == map[] && submitted == []
    {
      data := EmptyForm;
      errors := map[];
      submitted := [];
    }

    /** `handleInputChange`: the value is stored and only that field's
        error is blanked. */
    method InputChange(f: FormField, value: string)
      requires Valid()
      modifies this
      ensures Valid()
      ensures data == With(old(data), f, value)
      ensures errors.Keys == old(errors).Keys
      ensures f in errors ==> errors[f] == ""
      ensures forall g :: g in errors && g != f ==> errors[g] == old(errors)[g]
      ensures submitted == old(submitted)
    {
      data := With(data, f, value);
      if f in errors && errors[f] != "" {
        errors := errors[f := ""];
      }
    }

    /** `validateForm`: the errors are collected field by field, and the
        form passes exactly when none was recorded. */
    method ValidateForm() returns (ok: bool)
      requires Valid()
      modifies this
      ensures Valid()
      ensures forall f :: f in errors <==> FieldError(data, f).Some?
      ensures forall f :: f in errors ==> errors[f] == FieldError(data, f).value
      ensures ok <==> FormValid(data)
      ensures data == old(data) && submitted == old(submitted)
    {
      errors := CollectErrors(data);
      NoErrorsIffValid(data);
      ok := errors == map[];
      if !ok {
        var f :| f in errors;
      }
    }

    /** `handleSubmit`: a passing form is handed on with its PAN
        upper-cased. */
    method Submit()
      requires Valid()
      modifies this
      ensures Valid()
      ensures forall f :: f in errors <==> FieldError(data, f).Some?
      ensures FormValid(data) ==> submitted == old(submitted) + [Submission(data)]
      ensures !FormValid(data) ==> submitted == old(submitted)
      ensures data == old(data)
    {
      var ok := ValidateForm();
      if ok {
        submitted := submitted + [Submission(data)];
      }
    }
  }
}
