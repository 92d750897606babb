/** The review-and-submit step of the IPO application: the statutory
    charges on the investment, the grand total, and the submission, which
    waits for the terms to be accepted. */
module ApplicationReview {
  import opened Common
  import opened ClientSelection
  import opened LotCalculation
  import opened PaymentSelection

  datatype Charges = Charges(brokerage: real, stt: real, gst: real, sebiCharges: real, stampDuty: real)

  /** The five charges on an investment `t`: brokerage 0.1%, STT 0.1%, GST
      at 18% of the brokerage, SEBI fees 0.01% and stamp duty 0.015%. */
  function ChargesFor(t: real): (c: Charges)
    ensures c.gst == c.brokerage * 0.18
    ensures c.stt == c.brokerage
  {
    Charges(t * 0.001, t * 0.001, (t * 0.001) * 0.18, t * 0.0001, t * 0.00015)
  }

  /** The charges added up. */
  function TotalCharges(c: Charges): real {
    c.brokerage + c.stt + c.gst + c.sebiCharges + c.stampDuty
  }

  function GrandTotal(t: real): real {
    t + TotalCharges(ChargesFor(t))
  }

  /** Together the charges are 0.243% of the investment. */
  lemma TotalChargesRate(t: real)
    ensures TotalCharges(ChargesFor(t)) == t * 0.00243
    ensures GrandTotal(t) == t * 1.00243
  {
  }

  /** An investment of 100000 costs 100 + 100 + 18 + 10 + 15 = 243 in
      charges, 100243 in all. */
  lemma ChargesExample()
    ensures ChargesFor(100000.0) == Charges(100.0, 100.0, 18.0, 10.0, 15.0)
    ensures TotalCharges(ChargesFor(100000.0)) == 243.0
    ensures GrandTotal(100000.0) == 100243.0
  {
  }

  /** No charge is negative on a non-negative investment, so the grand
      total is never below it. */
  lemma ChargesNonNegative(t: real)
    requires t >= 0.0
    ensures var c := ChargesFor(t);
      c.brokerage >= 0.0 && c.stt >= 0.0 && c.gst >= 0.0 && c.sebiCharges >= 0.0 && c.stampDuty >= 0.0
    ensures GrandTotal(t) >= t
  {
  }

  /** The UPI line: the id, or "Not specified" when none was typed. */
  function UpiLabel(upiId: Option<string>): (r: string)
    ensures |r| >= 6 && r[..5] == "UPI (" && r[|r| - 1] == ')'
    ensures upiId.Some? && upiId.value != "" ==> r[5..|r| - 1] == upiId.value
    ensures upiId.None? || upiId.value == "" ==> r == "UPI (Not specified)"
  {
    var id := if upiId.Some? && upiId.value != "" then upiId.value else "Not specified";
    "UPI (" + id + ")"
  }

  /** The payment line of the summary: "Not selected" exactly when no
      method was chosen. */
  function PaymentLabel(payment: Option<PaymentChoice>): (r: string)
    ensures r == "Not selected" <==> payment.None?
    ensures payment.Some? && payment.value.methodId == Upi ==> r == UpiLabel(payment.value.upiId)
    ensures payment.Some? && payment.value.methodId == NetBanking ==> r == "Net Banking"
    ensures payment.Some? && payment.value.methodId == Asba ==> r == "ASBA Bank Form"
  {
    match payment
    case None => "Not selected"
    case Some(p) =>
      match p.methodId
      case Upi => UpiLabel(p.upiId)
      case NetBanking => "Net Banking"
      case Asba => "ASBA Bank Form"
  }

  /** What `onSubmit` receives. */
  datatype Submission = Submission(
    ipoDetails: Issue,
    clients: seq<Client>,
    calculations: CalculationData,
    payment: Option<PaymentChoice>,
    charges: Charges,
    totalAmount: real)

  class ApplicationSummary {
    const ipo: Issue
    const clients: seq<Client>
    const calculation: CalculationData
    const payment: Option<PaymentChoice>
    var agreedToTerms: bool
    var isSubmitting: bool
    /** Every submission handed to the wizard, in order. */
    var submitted: seq<Submission>
    /** How many submissions have been started. */
    ghost var started: nat

    /** Every started submission is either delivered or the one in flight. */
    ghost predicate Valid()
      reads this
    {
      started == |submitted| + (if isSubmitting then 1 else 0)
    }

    constructor(ipo: Issue, clients: seq<Client>, calculation: CalculationData, payment: Option<PaymentChoice>)
      ensures Valid()
      ensures this.ipo == ipo && this.clients == clients
      ensures this.calculation == calculation && this.payment == payment
      ensures !agreedToTerms && !isSubmitting && submitted == []
    {
      this.ipo := ipo;
      this.clients := clients;
      this.calculation := calculation;
      this.payment := payment;
      agreedToTerms := false;
      isSubmitting := false;
      submitted := [];
      started := 0;
    }

    method SetAgreedToTerms(agreed: bool)
      requires Valid()
      modifies this
      ensures Valid()
      ensures agreedToTerms == agreed
      ensures isSubmitting == old(isSubmitting) && submitted == old(submitted)
    {
      agreedToTerms := agreed;
    }

    /** The submit button needs the terms ticked and is disabled while a
        submission runs. */
    function SubmitEnabled(): (r: bool)
      reads this
      ensures r ==> agreedToTerms
      ensures isSubmitting ==> !r
      ensures !isSubmitting ==> (r <==> agreedToTerms)
    {
      agreedToTerms && !isSubmitting
    }

    /** The record sent once the simulated submission finishes. */
    function Payload(): (s: Submission)
      reads this
      ensures s.totalAmount == GrandTotal(calculation.totalInvestment)
      ensures s.charges == ChargesFor(calculation.totalInvestment)
      ensures s.totalAmount == calculation.totalInvestment + TotalCharges(s.charges)
      ensures s.clients == clients && s.calculations == calculation && s.payment == payment
    {
      Submission(ipo, clients, calculation, payment,
        ChargesFor(calculation.totalInvestment), GrandTotal(calculation.totalInvestment))
    }

    /** `handleSubmit`: without accepted terms nothing happens; otherwise a
        submission starts. */
    method Submit()
      requires Valid()
      requires !isSubmitting
      modifies this
      ensures Valid()
      ensures isSubmitting <==> agreedToTerms
      ensures isSubmitting <==> old(SubmitEnabled())
      ensures submitted == old(submitted) && agreedToTerms == old(agreedToTerms)
    {
      if !agreedToTerms {
        return;
      }
      isSubmitting := true;
      started := started + 1;
    }

    /** The submission's timer fires: the payload goes to the wizard. */
    method CompleteSubmission()
      requires Valid()
      requires isSubmitting
      modifies this
      ensures Valid()
      ensures !isSubmitting
      ensures submitted == old(submitted) + [Payload()]
      ensures agreedToTerms == old(agreedToTerms)
    {
      isSubmitting := false;
      submitted := submitted + [Payload()];
    }
  }
}
