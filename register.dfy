/** The five-step registration page: the form data collected so far, the
    required-field check of each step, and the bounded stepping that only
    moves forward past a step whose check passes. */
module Registration {
  import opened Common

  /** A form value: text typed into a field, or the verification flag the
      OTP step reports. */
  datatype FieldValue = Text(s: string) | Flag(b: bool)

  type Form = map<string, FieldValue>

  /** JavaScript truthiness of a form entry: a missing entry, the empty
      string and `false` all count as not filled in. */
  predicate Filled(form: Form, field: string) {
    field in form &&
    match form[field]
    case Text(s) => s != ""
    case Flag(b) => b
  }

  function Lookup(form: Form, field: string): Option<FieldValue> {
    if field in form then Some(form[field]) else None
  }

  datatype Requirement = Requirement(field: string, message: string)

  /** The errors `validateStep` records for missing fields, checking the
      requirements in order; a later message on the same field wins. */
  function MissingErrors(form: Form, reqs: seq<Requirement>): (r: map<string, string>)
    ensures forall k :: k in r <==> exists i :: 0 <= i < |reqs| && reqs[i].field == k && !Filled(form, k)
    ensures forall k :: k in r ==> exists i :: 0 <= i < |reqs| && reqs[i].field == k && r[k] == reqs[i].message
  {
    if reqs == [] then map[]
    else
      var rest := MissingErrors(form, reqs[..|reqs| - 1]);
      var last := reqs[|reqs| - 1];
      assert forall i :: 0 <= i < |reqs| - 1 ==> reqs[..|reqs| - 1][i] == reqs[i];
      if !Filled(form, last.field) then rest[last.field := last.message] else rest
  }

  const PersonalRequired: seq<Requirement> := [
    Requirement("firstName", "First name is required"),
    Requirement("lastName", "Last name is required"),
    Requirement("email", "Email is required"),
    Requirement("mobile", "Mobile number is required"),
    Requirement("dateOfBirth", "Date of birth is required"),
    Requirement("gender", "Gender is required")]

  const DocumentsRequired: seq<Requirement> := [
    Requirement("panNumber", "PAN number is required"),
    Requirement("aadhaarNumber", "Aadhaar number is required")]

  const AccountsRequired: seq<Requirement> := [
    Requirement("depositoryType", "Please select a depository"),
    Requirement("dematAccountNumber", "Demat account number is required"),
    Requirement("dpId", "DP ID is required"),
    Requirement("clientId", "Client ID is required")]

  const BankingRequired: seq<Requirement> := [
    Requirement("bankName", "Bank name is required"),
    Requirement("accountHolderName", "Account holder name is required"),
    Requirement("accountType", "Account type is required"),
    Requirement("accountNumber", "Account number is required"),
    Requirement("confirmAccountNumber", "Please confirm account number"),
    Requirement("ifscCode", "IFSC code is required"),
    Requirement("branchName", "Branch name is required")]

  const AccountsMismatch: string := "Account numbers do not match"
  const VerificationRequired: string := "Mobile verification is required"

  /** The two account number entries differ; two absent entries agree, an
      absent one and an empty one do not. */
  predicate AccountNumbersDiffer(form: Form) {
    Lookup(form, "accountNumber") != Lookup(form, "confirmAccountNumber")
  }

  /** The banking step's errors: the missing fields, and a mismatch on the
      confirmation field, which replaces its missing-field message. */
  function BankingErrors(form: Form): (r: map<string, string>)
    ensures AccountNumbersDiffer(form) ==> "confirmAccountNumber" in r && r["confirmAccountNumber"] == AccountsMismatch
    ensures forall k :: k in r && k != "confirmAccountNumber" ==> !Filled(form, k)
    ensures r == map[] ==> forall i :: 0 <= i < |BankingRequired| ==> Filled(form, BankingRequired[i].field)
  {
    var missing := MissingErrors(form, BankingRequired);
    MissingErrorsEmpty(form, BankingRequired);
    if AccountNumbersDiffer(form) then missing["confirmAccountNumber" := AccountsMismatch] else missing
  }

  /** The errors `validateStep(step)` records. */
  function StepErrors(form: Form, step: int): (r: map<string, string>)
    ensures step < 1 || step > 5 ==> r == map[]
    ensures 1 <= step <= 3 ==> forall k :: k in r ==> !Filled(form, k)
    ensures step == 5 ==> (r == map[] <==> Filled(form, "mobileVerified"))
  {
    if step == 1 then MissingErrors(form, PersonalRequired)
    else if step == 2 then MissingErrors(form, DocumentsRequired)
    else if step == 3 then MissingErrors(form, AccountsRequired)
    else if step == 4 then BankingErrors(form)
    else if step == 5 then
      if !Filled(form, "mobileVerified") then
        var errors := map["verification" := VerificationRequired];
        assert "verification" in errors;
        errors
      else map[]
    else map[]
  }

  /** `validateStep`: true exactly when no error was recorded. */
  predicate StepValid(form: Form, step: int) {
    StepErrors(form, step) == map[]
  }

  /** No error for a list of requirements means every field is filled. */
  lemma MissingErrorsEmpty(form: Form, reqs: seq<Requirement>)
    ensures MissingErrors(form, reqs) == map[] <==> forall i :: 0 <= i < |reqs| ==> Filled(form, reqs[i].field)
  {
    var r := MissingErrors(form, reqs);
    if r != map[] {
      var k :| k in r;
    }
  }

  /** Every field of a list filled in, spelled out for a list of six. */
  lemma AllFilledSix(form: Form, reqs: seq<Requirement>)
    requires |reqs| == 6
    ensures (forall i :: 0 <= i < |reqs| ==> Filled(form, reqs[i].field)) <==>
      Filled(form, reqs[0].field) && Filled(form, reqs[1].field) && Filled(form, reqs[2].field)
      && Filled(form, reqs[3].field) && Filled(form, reqs[4].field) && Filled(form, reqs[5].field)
  {
  }

  lemma AllFilledFour(form: Form, reqs: seq<Requirement>)
    requires |reqs| == 4
    ensures (forall i :: 0 <= i < |reqs| ==> Filled(form, reqs[i].field)) <==>
      Filled(form, reqs[0].field) && Filled(form, reqs[1].field)
      && Filled(form, reqs[2].field) && Filled(form, reqs[3].field)
  {
  }

  lemma PersonalStepValid(form: Form)
    ensures StepValid(form, 1) <==>
      Filled(form, "firstName") && Filled(form, "lastName") && Filled(form, "email")
      && Filled(form, "mobile") && Filled(form, "dateOfBirth") && Filled(form, "gender")
  {
    var r := PersonalRequired;
    assert r[0].field == "firstName";
    assert r[1].field == "lastName";
    assert r[2].field == "email";
    assert r[3].field == "mobile";
    assert r[4].field == "dateOfBirth";
    assert r[5].field == "gender";
    MissingErrorsEmpty(form, r);
    AllFilledSix(form, r);
  }

  /** The documents step checks only that the PAN and Aadhaar numbers are
      present, not their format. */
  lemma DocumentsStepValid(form: Form)
    ensures StepValid(form, 2) <==> Filled(form, "panNumber") && Filled(form, "aadhaarNumber")
  {
    var r := DocumentsRequired;
    assert r[0].field == "panNumber";
    assert r[1].field == "aadhaarNumber";
    MissingErrorsEmpty(form, r);
  }

  lemma AccountsStepValid(form: Form)
    ensures StepValid(form, 3) <==>
      Filled(form, "depositoryType") && Filled(form, "dematAccountNumber")
      && Filled(form, "dpId") && Filled(form, "clientId")
  {
    var r := AccountsRequired;
    assert r[0].field == "depositoryType";
    assert r[1].field == "dematAccountNumber";
    assert r[2].field == "dpId";
    assert r[3].field == "clientId";
    MissingErrorsEmpty(form, r);
    AllFilledFour(form, r);
  }

  lemma BankingErrorsEmpty(form: Form)
    ensures BankingErrors(form) == map[] <==>
      MissingErrors(form, BankingRequired) == map[] && !AccountNumbersDiffer(form)
  {
    if AccountNumbersDiffer(form) {
      assert "confirmAccountNumber" in BankingErrors(form);
    }
  }

  lemma AllFilledSeven(form: Form, reqs: seq<Requirement>)
    requires |reqs| == 7
    ensures (forall i :: 0 <= i < |reqs| ==> Filled(form, reqs[i].field)) <==>
      Filled(form, reqs[0].field) && Filled(form, reqs[1].field) && Filled(form, reqs[2].field)
      && Filled(form, reqs[3].field) && Filled(form, reqs[4].field) && Filled(form, reqs[5].field)
      && Filled(form, reqs[6].field)
  {
  }

  /** The banking step needs its seven fields and the two account numbers
      to agree. */
  lemma BankingStepValid(form: Form)
    ensures StepValid(form, 4) <==>
      Filled(form, "bankName") && Filled(form, "accountHolderName") && Filled(form, "accountType")
      && Filled(form, "accountNumber") && Filled(form, "confirmAccountNumber")
      && Filled(form, "ifscCode") && Filled(form, "branchName")
      && !AccountNumbersDiffer(form)
  {
    var r := BankingRequired;
    assert r[0].field == "bankName";
    assert r[1].field == "accountHolderName";
    assert r[2].field == "accountType";
    assert r[3].field == "accountNumber";
    assert r[4].field == "confirmAccountNumber";
    assert r[5].field == "ifscCode";
    assert r[6].field == "branchName";
    assert StepErrors(form, 4) == BankingErrors(form);
    BankingErrorsEmpty(form);
    MissingErrorsEmpty(form, r);
    AllFilledSeven(form, r);
  }

  /** A mismatch is reported on the confirmation field and overrides the
      message for a missing confirmation. */
  lemma MismatchOverrides(form: Form)
    requires AccountNumbersDiffer(form)
    ensures StepErrors(form, 4)["confirmAccountNumber"] == AccountsMismatch
  {
  }

  lemma VerificationStepValid(form: Form)
    ensures StepValid(form, 5) <==> Filled(form, "mobileVerified")
  {
    if !Filled(form, "mobileVerified") {
      assert "verification" in StepErrors(form, 5);
    }
  }

  /** Once the verification step reports `mobileVerified = true`, the last
      step's check passes, whatever else the form holds. */
  lemma ReportedVerificationPasses(form: Form)
    ensures StepValid(form["mobileVerified" := Flag(true)], 5)
    ensures !StepValid(form["mobileVerified" := Flag(false)], 5)
  {
    VerificationStepValid(form["mobileVerified" := Flag(true)]);
    VerificationStepValid(form["mobileVerified" := Flag(false)]);
  }

  const StepCount: int := 5

  class RegisterPage {
    var currentStep: int
    var formData: Form
    var errors: map<string, string>
    var isSubmitting: bool
    /** Set when registration finishes and the user is sent on. */
    var registered: bool

    ghost predicate Valid()
      reads this
    {
      1 <= currentStep <= StepCount
    }

    /** The page opens on the first step with the role preset to client. */
    constructor()
      ensures Valid()
      ensures currentStep == 1 && formData == map["role" := Text("client")] && errors == map[]
      ensures !isSubmitting && !registered
    {
      currentStep := 1;
      formData := map["role" := Text("client")];
      errors := map[];
      isSubmitting := false;
      registered := false;
    }

    /** `handleInputChange`: the value is stored and only that field's
        error is blanked. */
    method InputChange(field: string, value: FieldValue)
      requires Valid()
      modifies this
      ensures Valid()
      ensures formData == old(formData)[field := value]
      ensures errors == ClearError(old(errors), field)
      ensures currentStep == old(currentStep) && isSubmitting == old(isSubmitting) && registered == old(registered)
    {
      formData := formData[field := value];
      errors := ClearError(errors, field);
    }

    /** `handleNext`: the current step is checked, and only a passing step
        is left, never past the last one. */
    method Next()
      requires Valid()
      modifies this
      ensures Valid()
      ensures errors == StepErrors(formData, old(currentStep))
      ensures StepValid(formData, old(currentStep)) ==>
        currentStep == if old(currentStep) < StepCount then old(currentStep) + 1 else StepCount
      ensures !StepValid(formData, old(currentStep)) ==> currentStep == old(currentStep)
      ensures formData == old(formData) && isSubmitting == old(isSubmitting) && registered == old(registered)
    {
      errors := StepErrors(formData, currentStep);
      if errors == map[] {
        currentStep := if currentStep + 1 < StepCount then currentStep + 1 else StepCount;
      }
    }

    /** `handlePrevious`: one step back, never before the first. */
    method Previous()
      requires Valid()
      modifies this
      ensures Valid()
      ensures currentStep == if old(currentStep) > 1 then old(currentStep) - 1 else 1
      ensures formData == old(formData) && errors == old(errors)
      ensures isSubmitting == old(isSubmitting) && registered == old(registered)
    {
      currentStep := if currentStep - 1 > 1 then currentStep - 1 else 1;
    }

    /** `handleSubmit`, offered in place of Next on the last step and not
        clickable while a submission runs. */
    method Submit()
      requires Valid() && currentStep == StepCount && !isSubmitting
      modifies this
      ensures Valid()
      ensures errors == StepErrors(formData, currentStep)
      ensures isSubmitting <==> Filled(formData, "mobileVerified")
      ensures currentStep == old(currentStep) && formData == old(formData) && registered == old(registered)
    {
      VerificationStepValid(formData);
      errors := StepErrors(formData, currentStep);
      if errors != map[] {
        return;
      }
      isSubmitting := true;
    }

    /** The simulated registration call returns. */
    method CompleteSubmission()
      requires Valid() && isSubmitting
      modifies this
      ensures Valid()
      ensures registered && !isSubmitting
      ensures currentStep == old(currentStep) && formData == old(formData) && errors == old(errors)
    {
      registered := true;
      isSubmitting := false;
    }
  }
}
