/** The IPO application wizard: the step list, which depends on the user's
    role, the component shown at each step, the gate on the Next button,
    and the wizard's own state with Next, Previous and Save-draft. */
module IpoWizard {
  import opened Common
  import opened ClientSelection
  import opened LotCalculation
  import opened PaymentSelection

  const SubbrokerRole: string := "subbroker"
  const ClientRole: string := "client"

  datatype Step = Step(id: int, title: string)

  const IpoDetailsTitle: string := "IPO Details"
  const SelectClientsTitle: string := "Select Clients"
  const LotCalculationTitle: string := "Lot Calculation"
  const PaymentMethodTitle: string := "Payment Method"
  const ReviewTitle: string := "Review & Submit"

  /** The progress bar's steps. A sub-broker first selects clients; any
      other role goes straight from the IPO details to the lot calculation. */
  function Steps(role: string): (r: seq<Step>)
    ensures role == SubbrokerRole ==> |r| == 5 && r[1] == Step(2, SelectClientsTitle)
    ensures role != SubbrokerRole ==> |r| == 4 && forall i :: 0 <= i < |r| ==> r[i].title != SelectClientsTitle
    ensures forall i :: 0 <= i < |r| ==> r[i].id == i + 1
    ensures r[0].title == IpoDetailsTitle && r[|r| - 1].title == ReviewTitle
  {
    var sub := role == SubbrokerRole;
    [Step(1, IpoDetailsTitle)]
    + (if sub then [Step(2, SelectClientsTitle)] else [])
    + [ Step(if sub then 3 else 2, LotCalculationTitle),
        Step(if sub then 4 else 3, PaymentMethodTitle),
        Step(if sub then 5 else 4, ReviewTitle) ]
  }

  /** The client a non-sub-broker applies for when nobody was selected:
      the signed-in user, verified, with 200000 available. */
  const CurrentUser: Client := Client("current-user", "Current User", "user@email.com", "", 200000.0, Verified)

  /** The component rendered at a step. */
  datatype StepView =
    | IpoDetailsView
    | ClientSelectionView(selected: seq<Client>)
    | LotCalculationView(clients: seq<Client>)
    | PaymentView(totalAmount: real, clients: seq<Client>)
    | SummaryView
    | NoView

  /** `calculationData.totalInvestment || 0`. */
  function TotalAmount(calculation: Option<CalculationData>): real {
    if calculation.Some? then calculation.value.totalInvestment else 0.0
  }

  /** `getCurrentStepComponent`, switching on the raw step number. */
  function StepComponent(role: string, step: int, selected: seq<Client>, calculation: Option<CalculationData>): (r: StepView)
    ensures r == NoView <==> step < 1 || step > 5
    ensures r.ClientSelectionView? ==> role == SubbrokerRole && step == 2
    ensures r.LotCalculationView? && role != SubbrokerRole ==> |r.clients| > 0
    ensures r.PaymentView? ==> r.totalAmount == TotalAmount(calculation)
  {
    var sub := role == SubbrokerRole;
    if step == 1 then IpoDetailsView
    else if step == 2 then
      if sub then ClientSelectionView(selected)
      else LotCalculationView(if |selected| > 0 then selected else [CurrentUser])
    else if step == 3 then
      if sub then LotCalculationView(selected) else PaymentView(TotalAmount(calculation), selected)
    else if step == 4 then
      if sub then PaymentView(TotalAmount(calculation), selected) else SummaryView
    else if step == 5 then SummaryView
    else NoView
  }

  /** The view kind a step title announces. */
  predicate ViewMatchesTitle(v: StepView, title: string) {
    match v
    case IpoDetailsView => title == IpoDetailsTitle
    case ClientSelectionView(_) => title == SelectClientsTitle
    case LotCalculationView(_) => title == LotCalculationTitle
    case PaymentView(_, _) => title == PaymentMethodTitle
    case SummaryView => title == ReviewTitle
    case NoView => false
  }

  /** For every role, each step of the progress bar renders the component
      its title names, and there is nothing past the last step. */
  lemma DispatchFollowsSteps(role: string, selected: seq<Client>, calculation: Option<CalculationData>)
    ensures forall step :: 1 <= step <= |Steps(role)| ==>
      ViewMatchesTitle(StepComponent(role, step, selected, calculation), Steps(role)[step - 1].title)
    ensures forall step :: step > |Steps(role)| && step != 5 ==> StepComponent(role, step, selected, calculation) == NoView
  {
    var s := Steps(role);
    if role == SubbrokerRole {
      assert s == [Step(1, IpoDetailsTitle), Step(2, SelectClientsTitle), Step(3, LotCalculationTitle),
                   Step(4, PaymentMethodTitle), Step(5, ReviewTitle)];
    } else {
      assert s == [Step(1, IpoDetailsTitle), Step(3 - 1, LotCalculationTitle),
                   Step(4 - 1, PaymentMethodTitle), Step(5 - 1, ReviewTitle)];
    }
  }

  /** A non-sub-broker with no selection calculates lots for the current
      user alone. */
  lemma DefaultClientSubstituted(role: string, calculation: Option<CalculationData>)
    requires role != SubbrokerRole
    ensures StepComponent(role, 2, [], calculation) == LotCalculationView([CurrentUser])
    ensures IsEligible(CurrentUser)
  {
  }

  /** `canProceedToNext`, keyed on the raw step number. */
  function CanProceed(role: string, step: int, selected: seq<Client>,
                      calculation: Option<CalculationData>, payment: Option<PaymentChoice>): (r: bool)
    ensures step == 1 ==> r
    ensures step < 1 || step > 4 ==> !r
    ensures r && step == 3 ==> TotalAmount(calculation) > 0.0
    ensures r && step == 4 ==> payment.Some?
  {
    if step == 1 then true
    else if step == 2 then role == ClientRole || |selected| > 0
    else if step == 3 then calculation.Some? && calculation.value.totalInvestment > 0.0
    else if step == 4 then payment.Some?
    else false
  }

  /** For a sub-broker each gate guards the step it belongs to: clients
      must be selected, a positive investment calculated and a payment
      method chosen; the last step never lets one proceed. */
  lemma SubbrokerGates(selected: seq<Client>, calculation: Option<CalculationData>, payment: Option<PaymentChoice>)
    ensures CanProceed(SubbrokerRole, 2, selected, calculation, payment) <==> |selected| > 0
    ensures CanProceed(SubbrokerRole, 3, selected, calculation, payment) <==> TotalAmount(calculation) > 0.0
    ensures CanProceed(SubbrokerRole, 4, selected, calculation, payment) <==> payment.Some?
    ensures !CanProceed(SubbrokerRole, |Steps(SubbrokerRole)|, selected, calculation, payment)
  {
  }

  /** For a client the gates are one step off: the lot calculation (step 2)
      always passes, and the payment step (3) waits for a positive
      investment rather than a payment method. */
  lemma ClientGatesShifted(selected: seq<Client>, calculation: Option<CalculationData>, payment: Option<PaymentChoice>)
    ensures StepComponent(ClientRole, 2, selected, calculation).LotCalculationView?
    ensures CanProceed(ClientRole, 2, selected, calculation, payment)
    ensures StepComponent(ClientRole, 3, selected, calculation).PaymentView?
    ensures CanProceed(ClientRole, 3, selected, calculation, payment) <==> TotalAmount(calculation) > 0.0
  {
  }

  /** The record kept by "Save as draft"; the time stamp is left out. */
  datatype Draft = Draft(
    selectedIpo: Option<Issue>,
    selectedClients: seq<Client>,
    calculationData: Option<CalculationData>,
    paymentMethod: Option<PaymentChoice>,
    currentStep: int)

  class Wizard {
    const role: string
    const selectedIpo: Option<Issue>
    var currentStep: int
    var selectedClients: seq<Client>
    var calculationData: Option<CalculationData>
    var paymentMethod: Option<PaymentChoice>
    /** The draft under the `ipo_application_draft` storage key, if one was
        saved; each save overwrites it. */
    var savedDraft: Option<Draft>

    ghost predicate Valid()
      reads this
    {
      1 <= currentStep <= |Steps(role)|
    }

    /** The page as it opens, with the role and IPO handed over by the
        listing page. */
    constructor(role: string, selectedIpo: Option<Issue>)
      ensures Valid()
      ensures this.role == role && this.selectedIpo == selectedIpo
      ensures currentStep == 1 && selectedClients == []
      ensures calculationData.None? && paymentMethod.None? && savedDraft.None?
    {
      this.role := role;
      this.selectedIpo := selectedIpo;
      currentStep := 1;
      selectedClients := [];
      calculationData := None;
      paymentMethod := None;
      savedDraft := None;
    }

    function View(): StepView
      reads this
    {
      StepComponent(role, currentStep, selectedClients, calculationData)
    }

    /** Previous and Next are shown strictly between the first and the last
        step: never on the details step, and never on the review step, which
        has its own submit button. */
    function NavigationShown(): (r: bool)
      reads this
      ensures currentStep == 1 ==> !r
      ensures currentStep == |Steps(role)| ==> !r
      ensures Valid() ==> (r <==> currentStep != 1 && currentStep != |Steps(role)|)
    {
      1 < currentStep < |Steps(role)|
    }

    /** The Next button is enabled by the gate; `Next` itself does not look
        at it. An enabled Next is never on the last step, and it needs a
        positive investment on step 3 and a payment choice on step 4. */
    function NextEnabled(): (r: bool)
      reads this
      ensures r ==> NavigationShown() && currentStep < |Steps(role)|
      ensures r && currentStep == 3 ==> TotalAmount(calculationData) > 0.0
      ensures r && currentStep == 4 ==> paymentMethod.Some?
      ensures !NavigationShown() ==> !r
    {
      NavigationShown() && CanProceed(role, currentStep, selectedClients, calculationData, paymentMethod)
    }

    /** `handleNext`: one step forward, up to the last step. */
    method Next()
      requires Valid()
      modifies this
      ensures Valid()
      ensures currentStep == if old(currentStep) < |Steps(role)| then old(currentStep) + 1 else old(currentStep)
      ensures old(NextEnabled()) ==> currentStep == old(currentStep) + 1
      ensures selectedClients == old(selectedClients) && calculationData == old(calculationData)
      ensures paymentMethod == old(paymentMethod) && savedDraft == old(savedDraft)
    {
      if currentStep < |Steps(role)| {
        currentStep := currentStep + 1;
      }
    }

    /** `handlePrevious`: one step back, down to the first step. */
    method Previous()
      requires Valid()
      modifies this
      ensures Valid()
      ensures currentStep == if old(currentStep) > 1 then old(currentStep) - 1 else old(currentStep)
      ensures old(NavigationShown()) ==> currentStep == old(currentStep) - 1 && currentStep >= 1
      ensures selectedClients == old(selectedClients) && calculationData == old(calculationData)
      ensures paymentMethod == old(paymentMethod) && savedDraft == old(savedDraft)
    {
      if currentStep > 1 {
        currentStep := currentStep - 1;
      }
    }

    /** The callbacks the step components report through. */
    method OnClientSelection(clients: seq<Client>)
      requires Valid()
      modifies this
      ensures Valid()
      ensures selectedClients == clients && currentStep == old(currentStep)
      ensures calculationData == old(calculationData) && paymentMethod == old(paymentMethod) && savedDraft == old(savedDraft)
    {
      selectedClients := clients;
    }

    method OnCalculationUpdate(data: CalculationData)
      requires Valid()
      modifies this
      ensures Valid()
      ensures calculationData == Some(data) && currentStep == old(currentStep)
      ensures selectedClients == old(selectedClients) && paymentMethod == old(paymentMethod) && savedDraft == old(savedDraft)
    {
      calculationData := Some(data);
    }

    method OnPaymentMethodChange(choice: PaymentChoice)
      requires Valid()
      modifies this
      ensures Valid()
      ensures paymentMethod == Some(choice) && currentStep == old(currentStep)
      ensures selectedClients == old(selectedClients) && calculationData == old(calculationData) && savedDraft == old(savedDraft)
    {
      paymentMethod := Some(choice);
    }

    /** `handleSaveDraft`: a copy of the application so far, stored under
        the one draft key in place of any earlier draft. */
    method SaveDraft() returns (d: Draft)
      requires Valid()
      modifies this
      ensures Valid()
      ensures d == Draft(selectedIpo, selectedClients, calculationData, paymentMethod, currentStep)
      ensures savedDraft == Some(d)
      ensures currentStep == old(currentStep) && selectedClients == old(selectedClients)
      ensures calculationData == old(calculationData) && paymentMethod == old(paymentMethod)
    {
      d := Draft(selectedIpo, selectedClients, calculationData, paymentMethod, currentStep);
      savedDraft := Some(d);
    }
  }
}
