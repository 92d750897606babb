/** The payment step of the IPO application: one of three payment methods,
    with the UPI id or bank details the user has typed so far. */
module PaymentSelection {
  import opened Common

  datatype Method = Upi | NetBanking | Asba

  datatype BankDetails = BankDetails(accountNumber: string, ifscCode: string, bankName: string)

  datatype BankField = AccountNumber | IfscCode | BankName

  const EmptyBankDetails: BankDetails := BankDetails("", "", "")

  /** What the step reports to the wizard when a method is clicked. */
  datatype PaymentChoice = PaymentChoice(methodId: Method, upiId: Option<string>, bankDetails: Option<BankDetails>)

  /** The payload of `handlePaymentMethodChange`: the UPI id travels only
      with UPI, the bank details only with ASBA. */
  function Payload(m: Method, upiId: string, bank: BankDetails): (r: PaymentChoice)
    ensures r.methodId == m
    ensures r.upiId.Some? <==> m == Upi
    ensures r.bankDetails.Some? <==> m == Asba
    ensures r.upiId.Some? ==> r.upiId.value == upiId
    ensures r.bankDetails.Some? ==> r.bankDetails.value == bank
  {
    PaymentChoice(m,
      if m == Upi then Some(upiId) else None,
      if m == Asba then Some(bank) else None)
  }

  /** A payload never carries both a UPI id and bank details, and a net
      banking payload carries neither. */
  lemma PayloadExclusive(m: Method, upiId: string, bank: BankDetails)
    ensures !(Payload(m, upiId, bank).upiId.Some? && Payload(m, upiId, bank).bankDetails.Some?)
    ensures m == NetBanking ==> Payload(m, upiId, bank).upiId.None? && Payload(m, upiId, bank).bankDetails.None?
  {
  }

  function Field(b: BankDetails, f: BankField): string {
    match f
    case AccountNumber => b.accountNumber
    case IfscCode => b.ifscCode
    case BankName => b.bankName
  }

  /** `{ ...prev, [field]: value }`: the named field takes the value, the
      others keep theirs. */
  function WithField(b: BankDetails, f: BankField, value: string): (r: BankDetails)
    ensures Field(r, f) == value
    ensures forall g :: g != f ==> Field(r, g) == Field(b, g)
  {
    match f
    case AccountNumber => b.(accountNumber := value)
    case IfscCode => b.(ifscCode := value)
    case BankName => b.(bankName := value)
  }

  /** The bank form can be generated once the account number and the IFSC
      code are filled in; the bank name is optional. */
  predicate CanGenerateBankForm(b: BankDetails) {
    b.accountNumber != "" && b.ifscCode != ""
  }

  /** Filling in the bank name alone never enables the bank form, and it
      never disables it either. */
  lemma BankNameIrrelevant(b: BankDetails, name: string)
    ensures CanGenerateBankForm(WithField(b, BankName, name)) == CanGenerateBankForm(b)
  {
    assert Field(WithField(b, BankName, name), AccountNumber) == b.accountNumber;
    assert Field(WithField(b, BankName, name), IfscCode) == b.ifscCode;
  }

  class PaymentMethodSelector {
    var chosen: Method
    var upiId: string
    var bankDetails: BankDetails
    var processingUpi: bool
    /** The last payload reported to the wizard; none until a method is
        clicked. */
    var emitted: Option<PaymentChoice>

    constructor()
      ensures chosen == Upi && upiId == "" && bankDetails == EmptyBankDetails
      ensures !processingUpi && emitted.None?
    {
      chosen := Upi;
      upiId := "";
      bankDetails := EmptyBankDetails;
      processingUpi := false;
      emitted := None;
    }

    /** Clicking a method selects it and reports it; what was typed for the
        other methods is kept. */
    method ChooseMethod(m: Method) returns (payload: PaymentChoice)
      modifies this
      ensures chosen == m
      ensures payload == Payload(m, upiId, bankDetails) && emitted == Some(payload)
      ensures upiId == old(upiId) && bankDetails == old(bankDetails)
      ensures processingUpi == old(processingUpi)
    {
      chosen := m;
      payload := Payload(m, upiId, bankDetails);
      emitted := Some(payload);
    }

    /** Typing a UPI id does not report anything. */
    method SetUpiId(text: string)
      modifies this
      ensures upiId == text
      ensures chosen == old(chosen) && bankDetails == old(bankDetails)
      ensures processingUpi == old(processingUpi) && emitted == old(emitted)
    {
      upiId := text;
    }

    /** Typing into one bank field does not report anything either. */
    method ChangeBankDetail(f: BankField, value: string)
      modifies this
      ensures bankDetails == WithField(old(bankDetails), f, value)
      ensures chosen == old(chosen) && upiId == old(upiId)
      ensures processingUpi == old(processingUpi) && emitted == old(emitted)
    {
      bankDetails := WithField(bankDetails, f, value);
    }

    /** The UPI button is enabled only with an id and no payment running. */
    function UpiButtonEnabled(): (r: bool)
      reads this
      ensures r ==> upiId != ""
      ensures processingUpi ==> !r
      ensures !processingUpi ==> (r <==> upiId != "")
    {
      upiId != "" && !processingUpi
    }

    /** Starting a UPI payment; the handler itself gives up without an id. */
    method StartUpiPayment()
      requires !processingUpi
      modifies this
      ensures processingUpi <==> old(upiId) != ""
      ensures processingUpi <==> old(UpiButtonEnabled())
      ensures chosen == old(chosen) && upiId == old(upiId) && bankDetails == old(bankDetails)
      ensures emitted == old(emitted)
    {
      if upiId == "" {
        return;
      }
      processingUpi := true;
    }

    /** The simulated gateway answers. */
    method CompleteUpiPayment()
      requires processingUpi
      modifies this
      ensures !processingUpi
      ensures chosen == old(chosen) && upiId == old(upiId) && bankDetails == old(bankDetails)
      ensures emitted == old(emitted)
    {
      processingUpi := false;
    }
  }
}
