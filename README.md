# IPO bidder front end — a verified model

This project models the decision logic of a React front end for bidding in
Indian IPOs. In the front end, a sub-broker manages a roster of clients and
applies for IPOs on their behalf, while a client applies for themselves.
Almost everything the front end shows is mock data. The logic that decides
anything falls into three groups, and each group below is modelled and
proved in Dafny.

- **The IPO application wizard.**
  - The step list depends on the role: five steps for a sub-broker, four otherwise.
  - Previous and Next are bounded.
  - A per-step gate disables Next; the handler itself never consults it.
  - The client selector covers search, toggle, "select all eligible" and clear.
  - The lot calculator clamps lot counts, picks the effective price, and computes investment, totals, per-client eligibility and the record handed to the wizard.
  - The payment method selector picks the method, builds the payload and edits the bank form.
  - The summary computes the statutory charges, the grand total and the payment label, and submits once the terms are accepted.
- **Onboarding.**
  - Login: phone normalisation, mobile and OTP validation, the send / verify / resend machine and its countdown.
  - Registration: the per-step required-field check and bounded stepping.
  - The mobile-OTP verification form and the e-mail/mobile verification form, including the countdown format.
  - The password-strength counter.
  - The add-client form with its PAN and UPI patterns.
  - The bulk-upload dialog's upload / processing / results machine.
- **Lists.**
  - The sub-broker's client table: filter, sort, pagination, selection.
  - IPO listings: filter, sort, status tabs, with the filter panel's chips and quick filters, the sort controls and the search box's suggestions.
  - The allotment-status table.
  - Path breadcrumbs.
  - Three notification lists (mark read, mark all read, dismiss).
  - The top-clients ranking and the IPO-opportunities tabs.

React state becomes class fields and event handlers become methods with
`modifies this`. Timers (`setTimeout`, `setInterval`) become explicit
`Tick`/`Complete…`/`TimerFires` methods. The back end's answers become
method parameters, and navigation targets become returned values. Pure
computations (filters, comparators, lookups, validators) are functions,
and each comes with lemmas that relate it to a partner: an inverse, an
invariant, or a direct characterisation. Money is exact `real` and counts
are `int`/`nat`. Regular expressions are hand-written predicates over
`string`.

Modules, one per source file, plus shared helpers:

- `Common`: a generic order-preserving `Filter`, `Slice`, set toggling and error clearing.
- `Text`: case mapping, substring search, trimming, decimal digits, padding and string order by Unicode scalar values.
- `Numbers`: JavaScript `parseInt`/`parseFloat` on strings.
- `Sorting`: a stable insertion sort by a key, and its properties.

## Model

| member | source | states |
|---|---|---|
| IpoWizard.Steps | src/pages/ipo-application/index.jsx:33-64 | A sub-broker gets 5 steps with 'Select Clients' second, and any other role gets 4 steps without it. Ids run 1..n; the first step is the IPO details and the last the review. |
| IpoWizard.DispatchFollowsSteps | src/pages/ipo-application/index.jsx:112-200 | For every role, each step number in range renders the component its progress-bar title names. Nothing is rendered past the last step, except the raw step 5 case. |
| IpoWizard.StepComponent | src/pages/ipo-application/index.jsx:112-200 | Steps 1 to 5 render a component and every other step number renders nothing. Client selection appears only for a sub-broker at step 2. A non-sub-broker's lot calculation always has at least one client. The payment view receives the calculated total, or 0 when nothing is calculated. |
| IpoWizard.DefaultClientSubstituted | src/pages/ipo-application/index.jsx:131-141 | For a non-sub-broker with an empty selection, step 2 calculates lots for the single default client, whose KYC is Verified. |
| IpoWizard.SubbrokerGates | src/pages/ipo-application/index.jsx:202-215 | For a sub-broker, Next is enabled at step 2 iff a client is selected, at step 3 iff the total investment is positive and at step 4 iff a payment method is set. It is never enabled on the last step. |
| IpoWizard.ClientGatesShifted | src/pages/ipo-application/index.jsx:202-215 | For a client the gate is keyed on the raw step number. Lot calculation (step 2) always passes, and payment (step 3) is gated on the total investment. |
| IpoWizard.CanProceed | src/pages/ipo-application/index.jsx:202-215 | Step 1 always lets one proceed and step numbers outside 1 to 4 never do. Proceeding from step 3 needs a positive calculated total. Proceeding from step 4 needs a chosen payment method. |
| IpoWizard.Wizard.constructor | src/pages/ipo-application/index.jsx:16-31 | The page opens at step 1 with no selection, calculation, payment or draft, and with the role and IPO handed over. |
| IpoWizard.Wizard.Next | src/pages/ipo-application/index.jsx:66-70 | Raises the step by exactly 1 below the last step and leaves it unchanged at the last step. It does not consult the gate, and nothing else changes. Pressed while the Next button is enabled, it always moves exactly one step. |
| IpoWizard.Wizard.Previous | src/pages/ipo-application/index.jsx:72-76 | Lowers the step by 1 above step 1 and leaves it unchanged at step 1, so the step stays in [1, n]. Pressed while the buttons are shown, it always moves back exactly one step. |
| IpoWizard.Wizard.NavigationShown | src/pages/ipo-application/index.jsx:287 | Previous and Next are never shown on the first step or on the last (review) step, and on a valid step they are shown on every other step. |
| IpoWizard.Wizard.NextEnabled | src/pages/ipo-application/index.jsx:300 | An enabled Next button is shown and never on the last step. On step 3 it needs a positive total investment, and on step 4 a chosen payment method. |
| IpoWizard.Wizard.OnClientSelection | src/pages/ipo-application/index.jsx:78-80 | Stores the reported clients and changes nothing else. |
| IpoWizard.Wizard.OnCalculationUpdate | src/pages/ipo-application/index.jsx:82-84 | Stores the reported calculation and changes nothing else. |
| IpoWizard.Wizard.OnPaymentMethodChange | src/pages/ipo-application/index.jsx:86-88 | Stores the reported payment choice and changes nothing else. |
| IpoWizard.Wizard.SaveDraft | src/pages/ipo-application/index.jsx:97-109 | The draft copies the IPO, clients, calculation, payment method and step unchanged, and replaces whatever draft was stored under the one storage key. |
| ClientSelection.FilteredClients | src/pages/ipo-application/components/ClientSelector.jsx:94-98 | Keeps exactly the roster clients whose lower-cased name, e-mail or PAN contains the lower-cased term. |
| ClientSelection.EmptySearchShowsRoster | src/pages/ipo-application/components/ClientSelector.jsx:94-98 | The empty term shows the whole roster in roster order. |
| ClientSelection.Toggled | src/pages/ipo-application/components/ClientSelector.jsx:100-105 | A selected id is removed, leaving every other id. An unselected id is appended at the end. |
| ClientSelection.ToggledNoDuplicates | src/pages/ipo-application/components/ClientSelector.jsx:100-105 | Toggling never introduces a duplicate id. |
| ClientSelection.ToggleTwice | src/pages/ipo-application/components/ClientSelector.jsx:100-105 | Ticking an unselected client and unticking it again restores the selection exactly. |
| ClientSelection.SelectedFromRoster | src/pages/ipo-application/components/ClientSelector.jsx:107-110 | The reported records are exactly the roster clients whose ids are selected, in roster order. |
| ClientSelection.EligibleInView | src/pages/ipo-application/components/ClientSelector.jsx:113-118 | Select-all picks exactly the Verified clients of the current view. |
| ClientSelection.SelectAllIdempotent | src/pages/ipo-application/components/ClientSelector.jsx:113-118 | Selecting all eligible clients twice is the same as once. |
| ClientSelection.Selector.constructor | src/pages/ipo-application/components/ClientSelector.jsx:7-9 | Opens with an empty search and the ids of the clients chosen earlier. |
| ClientSelection.Selector.SetSearchTerm | src/pages/ipo-application/components/ClientSelector.jsx:166 | Sets the term and keeps the selection. |
| ClientSelection.Selector.Toggle | src/pages/ipo-application/components/ClientSelector.jsx:100-111 | Only a Verified client in the view can be toggled, because the checkbox is disabled otherwise. The selection becomes the toggled list, with no duplicates introduced, and the roster records of the selected ids are reported. |
| ClientSelection.Selector.SelectAll | src/pages/ipo-application/components/ClientSelector.jsx:113-118 | Replaces the selection with the Verified clients of the view and reports them. Selections outside the view are dropped. |
| ClientSelection.Selector.ClearAll | src/pages/ipo-application/components/ClientSelector.jsx:120-123 | Empties the selection and reports an empty list. |
| LotCalculation.ClampLotCount | src/pages/ipo-application/components/LotSizeCalculator.jsx:40 | The stored count is at least 1 and at most the maximum. An in-range count is kept, too many become the maximum, and a missing, zero or negative count becomes 1. |
| LotCalculation.ClampLots | src/pages/ipo-application/components/LotSizeCalculator.jsx:40 | The stored lot count for any typed text is at least 1, and at most the per-application limit when that limit is at least 1. |
| LotCalculation.ClampTooMany | src/pages/ipo-application/components/LotSizeCalculator.jsx:40 | With a maximum of 13, "50" is stored as 13. |
| LotCalculation.ClampNegative | src/pages/ipo-application/components/LotSizeCalculator.jsx:40 | With a maximum of 13, "-4" is stored as 1. |
| LotCalculation.ClampNotANumber | src/pages/ipo-application/components/LotSizeCalculator.jsx:40 | Non-numeric text is stored as 1. |
| LotCalculation.StepButtonKeepsInRange | src/pages/ipo-application/components/LotSizeCalculator.jsx:228-244 | A count passed by the plus or minus button is kept whenever it lies in [1, max]. |
| LotCalculation.EffectivePrice | src/pages/ipo-application/components/LotSizeCalculator.jsx:31-33 | The cut-off option gives the cut-off price. The custom option gives the parsed custom price when it is a non-zero number, and the cut-off price otherwise. |
| LotCalculation.CustomPriceUnchecked | src/pages/ipo-application/components/LotSizeCalculator.jsx:31-33 | A custom price far above the band (500 against 120-140) is taken as it is. |
| LotCalculation.CustomPriceInScientificNotation | src/pages/ipo-application/components/LotSizeCalculator.jsx:31-33 | A custom price typed as `1e2` is read as 100, as `parseFloat` reads it. |
| LotCalculation.Investment | src/pages/ipo-application/components/LotSizeCalculator.jsx:35-37 | The amount is zero when the lot count, the lot size or the price is zero. |
| LotCalculation.ClientEligibility | src/pages/ipo-application/components/LotSizeCalculator.jsx:72-81 | Eligible iff the investment is within the available funds and the lots are within the limit. The reason is 'Insufficient funds' whenever unaffordable, else 'Exceeds lot limit' when over the limit, else none. |
| LotCalculation.EligibilityExample | src/pages/ipo-application/components/LotSizeCalculator.jsx:72-81 | With funds of 15000, a lot size of 100 and a price of 150, one lot is eligible and two lots are 'Insufficient funds'. |
| LotCalculation.Lookup | src/pages/ipo-application/components/LotSizeCalculator.jsx:93 | `lotAllocations[id]` is present iff the id is a key, and then it is that entry's count. |
| LotCalculation.Put | src/pages/ipo-application/components/LotSizeCalculator.jsx:41-47 | The spread update keeps an existing key in place and appends a new one. The given key maps to the new count and every other key keeps its lookup. |
| LotCalculation.AllocateAll | src/pages/ipo-application/components/LotSizeCalculator.jsx:20-59 | The rebuilt allocation has exactly the selected client ids as keys, without duplicates, each mapped to the same count. |
| LotCalculation.BuildAllocations | src/pages/ipo-application/components/LotSizeCalculator.jsx:52-57 | The `forEach` loop builds exactly that allocation. |
| LotCalculation.TotalLots | src/pages/ipo-application/components/LotSizeCalculator.jsx:68-70 | No entries give 0 lots, and with at least one lot per client the total is at least the number of clients. Its other properties are in TotalInvestmentIsTotalLotsPriced, PutTotalLots and AllocateAllTotal. |
| LotCalculation.TotalInvestment | src/pages/ipo-application/components/LotSizeCalculator.jsx:62-66 | No entries give 0.0, and with a non-negative price, lot size and lot counts the sum is never negative. TotalInvestmentIsTotalLotsPriced proves it equals pricing the total lot count. |
| LotCalculation.TotalInvestmentIsTotalLotsPriced | src/pages/ipo-application/components/LotSizeCalculator.jsx:35-70 | Summing per-client investments equals pricing the total lot count: lots × lot size × price, with no rounding. |
| LotCalculation.PutTotalLots | src/pages/ipo-application/components/LotSizeCalculator.jsx:41-70 | Changing one client's count changes the total lots by the difference and by nothing else. |
| LotCalculation.AllocateAllTotal | src/pages/ipo-application/components/LotSizeCalculator.jsx:50-70 | Giving n lots to each of k distinct clients allocates k × n lots. |
| LotCalculation.ClientCalculations | src/pages/ipo-application/components/LotSizeCalculator.jsx:92-104 | One row per selected client, in selection order. A missing entry counts as one lot, and each row's investment and eligibility follow that count. |
| LotCalculation.AllocatedInRange | src/pages/ipo-application/components/LotSizeCalculator.jsx:50-59 | A bulk allocation with a clamped count keeps every stored count in [1, max]. |
| LotCalculation.LotCalculator.constructor | src/pages/ipo-application/components/LotSizeCalculator.jsx:7-29 | Mounting gives every selected client one lot, at the cut-off price, with an empty custom price. |
| LotCalculation.LotCalculator.SelectClients | src/pages/ipo-application/components/LotSizeCalculator.jsx:20-29 | A new selection resets every allocation to one lot per selected client. |
| LotCalculation.LotCalculator.LotChange | src/pages/ipo-application/components/LotSizeCalculator.jsx:39-48 | Stores the clamped count for that client only. Every other lookup is unchanged, and the total moves by the difference. |
| LotCalculation.LotCalculator.BulkLotUpdate | src/pages/ipo-application/components/LotSizeCalculator.jsx:50-60 | Every selected client gets the same clamped count, and only they keep an entry. |
| LotCalculation.LotCalculator.SetPriceOption | src/pages/ipo-application/components/LotSizeCalculator.jsx:135-148 | Sets the price option and keeps the allocations. |
| LotCalculation.LotCalculator.SetCustomPrice | src/pages/ipo-application/components/LotSizeCalculator.jsx:161 | Sets the custom price text and keeps the allocations. |
| LotCalculation.LotCalculator.Data | src/pages/ipo-application/components/LotSizeCalculator.jsx:84-106 | The emitted total investment is the priced total lot count. The custom price is present only for the custom option, and there is one calculation per selected client. |
| Numbers.ParseInt | src/pages/ipo-application/components/LotSizeCalculator.jsx:40 | `parseInt` gives a number iff, after leading blanks and an optional sign, at least one digit follows. |
| Numbers.LeadingDigits | src/pages/ipo-application/components/LotSizeCalculator.jsx:40 | The digit run `parseInt` reads is the longest all-digit prefix: the character after it, if any, is not a digit. |
| Numbers.ParseIntRoundTrip | src/pages/ipo-application/components/LotSizeCalculator.jsx:40 | `parseInt` reads back every integer written in decimal. |
| Numbers.ParseFloatOfInteger | src/pages/ipo-application/components/LotSizeCalculator.jsx:32 | `parseFloat` reads back every integer written in decimal. |
| Numbers.ParseFloat | src/pages/ipo-application/components/LotSizeCalculator.jsx:32 | After leading white space and an optional sign, `parseFloat` gives a number iff a digit follows, or a point and then a digit. A minus sign gives a value at most 0 and no sign a value at least 0. |
| Numbers.ParseFloatWithTail | src/pages/ipo-application/components/LotSizeCalculator.jsx:32 | Digits followed by text that starts with neither a point nor a digit read as their value, scaled by the exponent at the head of that text. |
| Numbers.ParseFloatDecimal | src/pages/ipo-application/components/LotSizeCalculator.jsx:32 | Digits, a point and more digits read as the whole part plus the fraction. |
| Numbers.ParseFloatScientific | src/pages/ipo-application/components/LotSizeCalculator.jsx:32 | Digits followed by `e` and k read as the digits' value times 10^k. |
| Numbers.ParseFloatScientificNegative | src/pages/ipo-application/components/LotSizeCalculator.jsx:32 | Digits followed by `e-` and k read as the digits' value divided by 10^k. |
| Numbers.ParseFloatExponentExample | src/pages/ipo-application/components/LotSizeCalculator.jsx:32 | `1e2` reads as 100. |
| Numbers.ParseFloatFractionExample | src/pages/ipo-application/components/LotSizeCalculator.jsx:32 | `2.5` reads as 2.5. |
| Numbers.ParseFloatNoExponentDigitsExample | src/pages/ipo-application/components/LotSizeCalculator.jsx:32 | In `7e` the `e` has no digits, so it is not part of the number and the text reads as 7. |
| Numbers.ParseFloatNotANumberExample | src/pages/ipo-application/components/LotSizeCalculator.jsx:32 | `abc` is not a number. |
| Numbers.ParseFloatSkipsNoBreakSpace | src/pages/ipo-application/components/LotSizeCalculator.jsx:32 | A leading no-break space is skipped as white space, so it reads as 42. |
| PaymentSelection.Payload | src/pages/ipo-application/components/PaymentMethodSelector.jsx:46-53 | The emitted method is the chosen one. `upiId` is present iff the method is UPI and `bankDetails` iff it is ASBA, each carrying the typed value. |
| PaymentSelection.PayloadExclusive | src/pages/ipo-application/components/PaymentMethodSelector.jsx:46-53 | The UPI id and the bank details are never both present, and net banking carries neither. |
| PaymentSelection.WithField | src/pages/ipo-application/components/PaymentMethodSelector.jsx:81-86 | Updates the named bank field only. |
| PaymentSelection.BankNameIrrelevant | src/pages/ipo-application/components/PaymentMethodSelector.jsx:248 | Whether the bank form can be generated does not depend on the bank name, only on the account number and the IFSC code. |
| PaymentSelection.PaymentMethodSelector.constructor | src/pages/ipo-application/components/PaymentMethodSelector.jsx:7-14 | The selector starts on UPI with an empty id and empty bank fields, not processing, and nothing emitted. |
| PaymentSelection.PaymentMethodSelector.ChooseMethod | src/pages/ipo-application/components/PaymentMethodSelector.jsx:46-53 | Sets the method and emits its payload. The typed UPI id and bank details are not cleared. |
| PaymentSelection.PaymentMethodSelector.SetUpiId | src/pages/ipo-application/components/PaymentMethodSelector.jsx:166 | Stores the id without re-emitting the payload. |
| PaymentSelection.PaymentMethodSelector.ChangeBankDetail | src/pages/ipo-application/components/PaymentMethodSelector.jsx:81-86 | Updates one bank field without re-emitting. |
| PaymentSelection.PaymentMethodSelector.StartUpiPayment | src/pages/ipo-application/components/PaymentMethodSelector.jsx:55-58 | An empty UPI id does nothing; otherwise processing starts. Processing starts exactly when the button was enabled. |
| PaymentSelection.PaymentMethodSelector.UpiButtonEnabled | src/pages/ipo-application/components/PaymentMethodSelector.jsx:173 | The UPI button needs a non-empty id and is disabled while a payment is processing. When nothing is processing, it is enabled iff an id is entered. |
| PaymentSelection.PaymentMethodSelector.CompleteUpiPayment | src/pages/ipo-application/components/PaymentMethodSelector.jsx:61-65 | The timer ends processing and changes nothing else. |
| ApplicationReview.ChargesFor | src/pages/ipo-application/components/ApplicationSummary.jsx:25-31 | STT equals the brokerage, and GST is 18% of the brokerage. |
| ApplicationReview.TotalChargesRate | src/pages/ipo-application/components/ApplicationSummary.jsx:25-34 | The five charges add up to 0.243% of the investment, and the grand total is 1.00243 times it. |
| ApplicationReview.ChargesExample | src/pages/ipo-application/components/ApplicationSummary.jsx:25-34 | An investment of 100000 gives charges of 100, 100, 18, 10 and 15, a total of 243 and a grand total of 100243. |
| ApplicationReview.ChargesNonNegative | src/pages/ipo-application/components/ApplicationSummary.jsx:25-34 | On a non-negative investment every charge is non-negative and the grand total is at least the investment. |
| ApplicationReview.UpiLabel | src/pages/ipo-application/components/ApplicationSummary.jsx:62 | The label is "UPI (…)". The typed id can be read back from between the parentheses, and a missing or empty id reads "Not specified". |
| ApplicationReview.PaymentLabel | src/pages/ipo-application/components/ApplicationSummary.jsx:59-70 | "Not selected" exactly when no method was chosen. UPI gets the UPI label, net banking is "Net Banking", and ASBA is "ASBA Bank Form". |
| ApplicationReview.ApplicationSummary.constructor | src/pages/ipo-application/components/ApplicationSummary.jsx:14-15 | Opens with the terms not accepted and nothing submitting or submitted. |
| ApplicationReview.ApplicationSummary.SetAgreedToTerms | src/pages/ipo-application/components/ApplicationSummary.jsx:212 | Sets the checkbox and nothing else. |
| ApplicationReview.ApplicationSummary.Payload | src/pages/ipo-application/components/ApplicationSummary.jsx:47-55 | The submitted record carries the charges and a total of the investment plus the charges. The clients, calculation and payment are passed on unchanged. |
| ApplicationReview.ApplicationSummary.Submit | src/pages/ipo-application/components/ApplicationSummary.jsx:36-45 | Callable only while no submission is in flight. Without accepted terms nothing starts; with them a submission starts. A submission starts exactly when the submit button was enabled. |
| ApplicationReview.ApplicationSummary.SubmitEnabled | src/pages/ipo-application/components/ApplicationSummary.jsx:238 | The submit button needs the terms ticked and is disabled while a submission runs. When nothing is submitting, it is enabled iff the terms are ticked. |
| ApplicationReview.ApplicationSummary.CompleteSubmission | src/pages/ipo-application/components/ApplicationSummary.jsx:45-56 | The timer hands the payload to the wizard exactly once and ends the submission. |
| Phone.DigitsOnly | src/pages/login/components/LoginForm.jsx:54 | Stripping non-digits never lengthens the input. |
| Phone.DigitsOnlyAllDigits | src/pages/login/components/LoginForm.jsx:54 | Only digits remain. |
| Phone.DigitsOnlyConcat | src/pages/login/components/LoginForm.jsx:54 | Stripping distributes over concatenation. |
| Phone.DigitsOnlyOfDigits | src/pages/login/components/LoginForm.jsx:54 | A string of digits has nothing to strip. |
| Phone.NormalizePhone | src/pages/login/components/LoginForm.jsx:52-61 | The result is all digits, and the empty input gives "". |
| Phone.NormalizeIdempotent | src/pages/login/components/LoginForm.jsx:52-61 | Normalising twice is normalising once. |
| Phone.NormalizeCases | src/pages/login/components/LoginForm.jsx:56-60 | Twelve digits starting with 91 lose the 91 and leave ten digits. Any other digit string is returned as it is. |
| Phone.FormattedNumberNormalizes | src/pages/login/components/LoginForm.jsx:52-61 | "+91 xxxxx xxxxx" normalises to its ten digits. |
| Phone.TenDigitsUnchanged | src/pages/login/components/LoginForm.jsx:52-61 | Ten digits are already normalised. |
| Login.KnownNumberRecognised | src/pages/login/components/LoginForm.jsx:64-68 | The known number is recognised whether it is typed as ten digits or as "+91 xxxxx xxxxx". |
| Login.ValidateMobile | src/pages/login/components/LoginForm.jsx:70-84 | No mobile error iff the input is non-empty and normalises to exactly ten digits. Errors fall only on the mobile field, and the empty input gets the 'required' message. |
| Login.ValidateOtp | src/pages/login/components/LoginForm.jsx:86-98 | No OTP error iff the boxes join to the demo code. A joined length other than 6 gets the 'complete 6-digit' message, and a wrong full code gets 'Invalid OTP'. |
| Login.EmptyOtp | src/pages/login/components/LoginForm.jsx:12-15 | Six empty boxes. |
| Login.FullBoxesMakeACode | src/pages/login/components/LoginForm.jsx:86-98 | Six one-character boxes join to six characters iff every box is filled, so the demo code is only accepted with every box filled. |
| Login.LoginForm.constructor | src/pages/login/components/LoginForm.jsx:11-42 | Opens on the phone step with empty fields. The zero countdown makes the effect allow resending. |
| Login.LoginForm.SetMobile | src/pages/login/components/LoginForm.jsx:100-114 | Stores the number and clears only the mobile error. |
| Login.LoginForm.ChangeOtpDigit | src/pages/login/components/LoginForm.jsx:116-133 | A value with a non-digit is ignored. Otherwise only box `index` changes and the OTP error is cleared. |
| Login.LoginForm.SendOtp | src/pages/login/components/LoginForm.jsx:149-194 | An invalid number records the validation error and stays on the phone step. A valid one records whether the user is new. Success or a network error moves to the OTP step with a 30-second countdown; a refusal records the back end's message. |
| Login.LoginForm.VerifyOtp | src/pages/login/components/LoginForm.jsx:196-204 | Records the OTP validation result, and verification starts iff the code is right. It captures the number and the new-user flag of that moment. |
| Login.LoginForm.CompleteVerification | src/pages/login/components/LoginForm.jsx:206-233 | The timer fires on either step, since nothing cancels it. It signs the user in with the number captured when Verify was pressed, which was validated on the phone step. It stores that number, and it sets the new-registration flag when the captured new-user flag was set. |
| Login.LoginForm.Tick | src/pages/login/components/LoginForm.jsx:33-42 | The countdown drops by one, and resending is allowed once it reaches 0. |
| Login.LoginForm.ResendOtp | src/pages/login/components/LoginForm.jsx:236-290 | Success or a network error restarts the 30-second countdown and clears the boxes. A refusal records the message on the OTP field and keeps the boxes. |
| Login.ChangeNumberDuringVerification | src/pages/login/components/LoginForm.jsx:206-233 | Pressing Change Number (lines 507-512) while the right code is being verified still signs the user in, on the phone step, with the earlier number rather than the one typed since. |
| Login.LoginForm.BackToPhone | src/pages/login/components/LoginForm.jsx:292-302 | Back to the phone step with the timer at 0, not a new user, and six empty boxes. The countdown effect may then re-allow resending. A verification in progress is left running. |
| Registration.MissingErrors | src/pages/register/index.jsx:36-57 | Records an error exactly on each required field that is not filled, with that field's message. |
| Registration.StepErrors | src/pages/register/index.jsx:36-77 | Step numbers outside 1 to 5 record no error. On steps 1 to 3 every error is on a field that is not filled. Step 5 records nothing iff the mobile number was verified. |
| Registration.BankingErrors | src/pages/register/index.jsx:58-69 | Differing account numbers always put the mismatch message on the confirmation field. Every other error is on a field that is not filled. No error means all seven banking fields are filled. |
| Registration.MissingErrorsEmpty | src/pages/register/index.jsx:75-76 | No error recorded iff every required field is filled. |
| Registration.PersonalStepValid | src/pages/register/index.jsx:39-46 | Step 1 passes iff first name, last name, e-mail, mobile, date of birth and gender are filled. |
| Registration.DocumentsStepValid | src/pages/register/index.jsx:47-51 | Step 2 passes iff PAN and Aadhaar are present, with no format check. |
| Registration.AccountsStepValid | src/pages/register/index.jsx:52-57 | Step 3 passes iff depository type, demat account number, DP id and client id are filled. |
| Registration.BankingStepValid | src/pages/register/index.jsx:58-69 | Step 4 passes iff the seven banking fields are filled and the two account numbers agree. |
| Registration.MismatchOverrides | src/pages/register/index.jsx:63-66 | Differing account numbers give 'Account numbers do not match' on the confirmation field, overriding 'Please confirm'. |
| Registration.VerificationStepValid | src/pages/register/index.jsx:70-72 | Step 5 passes iff the mobile is verified. |
| Registration.ReportedVerificationPasses | src/pages/register/index.jsx:70-72 | Once the OTP form reports verification the last step passes, and a false report does not. |
| Registration.RegisterPage.constructor | src/pages/register/index.jsx:15-18 | Opens at step 1 with role 'client' and no errors. |
| Registration.RegisterPage.InputChange | src/pages/register/index.jsx:28-33 | Stores the value and clears only that field's error. |
| Registration.RegisterPage.Next | src/pages/register/index.jsx:79-83 | Records the step's errors. Advances by one, capped at 5, iff the step is valid, and stays put otherwise. |
| Registration.RegisterPage.Previous | src/pages/register/index.jsx:85-87 | Moves back by one, floored at 1. |
| Registration.RegisterPage.Submit | src/pages/register/index.jsx:89-92 | On the last step, submitting starts iff the mobile is verified. |
| Registration.RegisterPage.CompleteSubmission | src/pages/register/index.jsx:95-103 | The simulated call completes the registration. |
| MobileVerification.OtpVerificationForm.constructor | src/pages/register/components/OTPVerificationForm.jsx:9-35 | Opens with six empty boxes, the 30-second countdown running and resending not allowed. |
| MobileVerification.OtpVerificationForm.ChangeOtpDigit | src/pages/register/components/OTPVerificationForm.jsx:45-61 | A non-digit value is ignored. Otherwise only box `index` changes, and verification starts iff the boxes then join to six characters. |
| MobileVerification.OtpVerificationForm.VerifyCode | src/pages/register/components/OTPVerificationForm.jsx:69-75 | Does nothing unless the code has length 6; otherwise verification of that code starts. |
| MobileVerification.OtpVerificationForm.Verify | src/pages/register/components/OTPVerificationForm.jsx:69-75 | The verify button starts verification of the joined code. |
| MobileVerification.OtpVerificationForm.CompleteVerification | src/pages/register/components/OTPVerificationForm.jsx:77-90 | The right code sets verified and reports mobileVerified. Any other code clears the six boxes and leaves the form unverified. |
| MobileVerification.OtpVerificationForm.Tick | src/pages/register/components/OTPVerificationForm.jsx:26-35 | The countdown drops by one, and resending is allowed exactly when it reaches 0. |
| MobileVerification.OtpVerificationForm.ResendOtp | src/pages/register/components/OTPVerificationForm.jsx:93-98 | Does nothing unless resending is allowed. Otherwise the countdown restarts at 30, resending is disallowed and the boxes are cleared. |
| ContactVerification.FormatTimeReadsBack | src/pages/register/components/VerificationForm.jsx:68-72 | "m:ss": the minutes and two-digit seconds read back to the number of seconds. |
| ContactVerification.FormatTime | src/pages/register/components/VerificationForm.jsx:68-72 | The countdown text has at least four characters, with the colon third from the end. Under ten minutes it is exactly `m:ss`. |
| ContactVerification.FormatTimeExamples | src/pages/register/components/VerificationForm.jsx:68-72 | 60 gives "1:00" and 5 gives "0:05". |
| ContactVerification.VerificationForm.constructor | src/pages/register/components/VerificationForm.jsx:6-14 | Opens with both codes empty, both timers at 0 and nothing verified. |
| ContactVerification.VerificationForm.SetCode | src/pages/register/components/VerificationForm.jsx:108-174 | Typing changes only that channel's code. The field takes at most six UTF-16 code units (`maxLength`). |
| ContactVerification.VerificationForm.Send | src/pages/register/components/VerificationForm.jsx:34-46 | Sending is enabled only with the channel's timer at 0, and sets that timer to 60. |
| ContactVerification.VerificationForm.Tick | src/pages/register/components/VerificationForm.jsx:16-32 | One channel's countdown drops by one. |
| ContactVerification.VerificationForm.Verify | src/pages/register/components/VerificationForm.jsx:48-66 | Enabled only when the code's `length`, in UTF-16 code units, is 6. The channel becomes verified iff its code is the channel's demo code (123456 for e-mail, 654321 for mobile). |
| ContactVerification.AstralCodeEnablesVerify | src/pages/register/components/VerificationForm.jsx:111-117 | The five characters "1234😀" are six code units, so the field takes them and the verify button is enabled. |
| ContactVerification.DemoCodesDiffer | src/pages/register/components/VerificationForm.jsx:48-66 | The two channels' demo codes differ. |
| Credentials.CalculateStrength | src/pages/register/components/AccountCredentialsForm.jsx:19-27 | The counter equals the number of checklist items met, at most 5. The length item counts UTF-16 code units, as `password.length` does. |
| Credentials.Checklist | src/pages/register/components/AccountCredentialsForm.jsx:126-132 | The checklist has five items. An empty password meets none of them. Eight characters always meet the length item. Meeting all five implies a `length` of at least 8 UTF-16 code units. |
| Credentials.AstralCharacterCountsTwice | src/pages/register/components/AccountCredentialsForm.jsx:19-27 | "abcdef😀" has seven characters but eight code units, so it meets the length item; with lower case and a special character its strength is 3. |
| Credentials.StrengthMonotone | src/pages/register/components/AccountCredentialsForm.jsx:20-24 | Appending a character never lowers the strength. |
| Credentials.AllCriteriaGiveFive | src/pages/register/components/AccountCredentialsForm.jsx:19-27 | A password meeting every criterion has strength 5. |
| Credentials.LabelMatchesColor | src/pages/register/components/AccountCredentialsForm.jsx:29-39 | Weak iff the strength is at most 2, and Strong iff at least 4. The bar colour follows the same thresholds. |
| Credentials.StrengthText | src/pages/register/components/AccountCredentialsForm.jsx:35-39 | The label is Weak iff at most two criteria are met, Medium iff exactly three, and Strong iff four or more. |
| Credentials.StrengthColor | src/pages/register/components/AccountCredentialsForm.jsx:29-33 | The bar is red iff at most two criteria are met, amber iff exactly three, and green iff four or more. |
| Credentials.AccountCredentialsForm.constructor | src/pages/register/components/AccountCredentialsForm.jsx:7-8 | Opens with the page's form data and strength 0. |
| Credentials.AccountCredentialsForm.HandleChange | src/pages/register/components/AccountCredentialsForm.jsx:10-17 | Stores the value. The strength is recomputed iff the password changed, and then equals the number of checklist items shown as met. |
| AddClient.PanExample | src/pages/add-client/components/ClientForm.jsx:34-39 | 'abcde1234f' passes and 'ABCDE12345' does not. |
| AddClient.IsPan | src/pages/add-client/components/ClientForm.jsx:34 | A string matching the PAN pattern has ten characters, all ASCII letters or digits. |
| AddClient.PanAccepted | src/pages/add-client/components/ClientForm.jsx:37 | Every PAN that matches as typed is accepted. An accepted PAN has ten characters and does not start with white space. |
| AddClient.UpperPanIsPan | src/pages/add-client/components/ClientForm.jsx:34-87 | An accepted PAN upper-cases to five letters, four digits and a letter. |
| AddClient.MatchUpiCorrect | src/pages/add-client/components/ClientForm.jsx:47-52 | The hand-written UPI matcher agrees with the pattern: 2-256 of letters, digits, '.', '-' and '_', then '@', then a letter and 2-64 letters. |
| AddClient.MatchUpi | src/pages/add-client/components/ClientForm.jsx:47-52 | A matching UPI id has 6 to 322 characters, contains an `@` and does not start with white space. |
| AddClient.UpiExamples | src/pages/add-client/components/ClientForm.jsx:47-52 | 'ab@okicici' passes; 'a@okicici' and 'ab@ok' do not. |
| AddClient.With | src/pages/add-client/components/ClientForm.jsx:63-67 | Updates only the named field. |
| AddClient.PatternsNotBlank | src/pages/add-client/components/ClientForm.jsx:35-52 | A value matching the PAN or UPI pattern is never blank, so the 'required' branch is never reached for it. |
| AddClient.PatternFieldsPass | src/pages/add-client/components/ClientForm.jsx:33-52 | The PAN field has no error iff the PAN is accepted, and the UPI field iff it matches the pattern. |
| AddClient.FieldError | src/pages/add-client/components/ClientForm.jsx:20-61 | An empty field always has an error, so a field without one is never empty. |
| AddClient.NoBreakSpaceNameIsBlank | src/pages/add-client/components/ClientForm.jsx:29 | A name made of one no-break space counts as blank, because `trim` removes it. |
| AddClient.NoErrorsIffValid | src/pages/add-client/components/ClientForm.jsx:20-61 | No field has an error iff the form is valid. |
| AddClient.FormValid | src/pages/add-client/components/ClientForm.jsx:20-61 | On a valid form no field is empty and the PAN has ten characters. |
| AddClient.Submission | src/pages/add-client/components/ClientForm.jsx:83-87 | The submitted record equals the form except that the PAN is upper-cased into a PAN. |
| AddClient.ClientForm.constructor | src/pages/add-client/components/ClientForm.jsx:9-18 | Opens with empty fields and no errors. |
| AddClient.ClientForm.InputChange | src/pages/add-client/components/ClientForm.jsx:63-76 | Stores the value and blanks only that field's error. |
| AddClient.ClientForm.ValidateForm | src/pages/add-client/components/ClientForm.jsx:20-61 | Records exactly the failing fields' errors and returns true iff the form is valid. |
| AddClient.CollectErrors | src/pages/add-client/components/ClientForm.jsx:21-57 | The collected map has an entry for exactly the fields whose check fails. Each entry is that field's own message. |
| AddClient.ClientForm.Submit | src/pages/add-client/components/ClientForm.jsx:78-89 | Submits the upper-cased record iff the form is valid. |
| BulkUpload.AcceptedExamples | src/pages/client-management/components/BulkUploadModal.jsx:43 | .xlsx and .xls names and the text/csv type are accepted; a .csv name with another type is not. |
| BulkUpload.Accepted | src/pages/client-management/components/BulkUploadModal.jsx:43 | A `text/csv` file is always taken, and so is any file whose name ends in `.xlsx` or `.xls`. Any other accepted file has a name of at least four characters ending in `.xls` or `xlsx`. |
| BulkUpload.UploadModal.constructor | src/pages/client-management/components/BulkUploadModal.jsx:6-8 | Opens on the upload step with no file and no drag. |
| BulkUpload.UploadModal.Drag | src/pages/client-management/components/BulkUploadModal.jsx:22-30 | Enter and over set the drag flag; leave clears it. |
| BulkUpload.UploadModal.HandleFileUpload | src/pages/client-management/components/BulkUploadModal.jsx:42-52 | An accepted file is stored, moves the dialog to processing and schedules the completion. A rejected file changes nothing. |
| BulkUpload.UploadModal.HandleDrop | src/pages/client-management/components/BulkUploadModal.jsx:32-40 | Clears the drag flag and uploads the first dropped file, if any. |
| BulkUpload.UploadModal.TimerFires | src/pages/client-management/components/BulkUploadModal.jsx:48-50 | Only the processing completion shows the results screen. |
| BulkUpload.UploadModal.ResetUpload | src/pages/client-management/components/BulkUploadModal.jsx:60-67 | As written: back to upload with no file and no drag, while a scheduled completion stays scheduled. |
| BulkUpload.UploadModal.ResetUploadCancelling | src/pages/client-management/components/BulkUploadModal.jsx:60-67 | Corrected: the same reset, also cancelling the completion, which leaves the dialog consistent. |
| BulkUpload.UploadModal.Close | src/pages/client-management/components/BulkUploadModal.jsx:69-86 | Confirming or the X button asks to close and runs the reset as written: the dialog is back on upload with no file, a scheduled completion stays scheduled, and a dialog closed while processing is left inconsistent. |
| BulkUpload.UploadModal.CloseCorrected | src/pages/client-management/components/BulkUploadModal.jsx:69-86 | Corrected: closing with the timer-cancelling reset leaves no completion pending and the dialog consistent. |
| BulkUpload.StaleTimerAsWritten | src/pages/client-management/components/BulkUploadModal.jsx:48-86 | Upload, then close before processing ends, and the results screen is shown with no file. |
| BulkUpload.StaleTimerCancelled | src/pages/client-management/components/BulkUploadModal.jsx:48-86 | With the corrected close the same events end on the upload screen, with no completion pending. |
| ClientManagement.Rows | src/pages/client-management/components/ClientManagementTable.jsx:93-120 | A client is listed iff it is in the roster and kept by the filters. The term must occur in the lower-cased name or e-mail, or verbatim in the phone. The status filter must be 'all' or equal the lower-cased status or verification status. Every kept client appears exactly as often as on the roster, and a client not kept does not appear. The rows are ordered by the sort column (strings compared lower-cased), ascending or descending as set. |
| ClientManagement.TotalPages | src/pages/client-management/components/ClientManagementTable.jsx:130 | The page count is ceil(n/10). |
| ClientManagement.PageOf | src/pages/client-management/components/ClientManagementTable.jsx:125-128 | A page is the slice [(page−1)·10, page·10): at most 10 rows, and a full 10 when enough rows follow. |
| ClientManagement.EveryRowOnAPage | src/pages/client-management/components/ClientManagementTable.jsx:125-130 | Every row appears on exactly the page its index puts it on, and that page is within the page count. |
| ClientManagement.PageIds | src/pages/client-management/components/ClientManagementTable.jsx:145 | The ids of a page's clients. |
| ClientManagement.SelectAllResult | src/pages/client-management/components/ClientManagementTable.jsx:141-147 | Select-all empties the selection when its size equals the page size. Otherwise the selection becomes exactly the page's ids. |
| ClientManagement.PageIdsCount | src/pages/client-management/components/ClientManagementTable.jsx:125-145 | With distinct ids, a page has as many ids as rows. |
| ClientManagement.SelectAllTwice | src/pages/client-management/components/ClientManagementTable.jsx:141-147 | Pressed twice on the same page, select-all selects the page and then clears it. |
| ClientManagement.SelectAllByCountOnly | src/pages/client-management/components/ClientManagementTable.jsx:142 | The test compares sizes only: one selected client elsewhere empties the selection of a one-row page. |
| ClientManagement.ClientTable.constructor | src/pages/client-management/components/ClientManagementTable.jsx:7-13 | Opens on page 1, sorted by name ascending, with no search, filter or selection. |
| ClientManagement.ClientTable.SetSearchTerm | src/pages/client-management/components/ClientManagementTable.jsx:205 | Sets the term only. |
| ClientManagement.ClientTable.SetStatusFilter | src/pages/client-management/components/ClientManagementTable.jsx:212 | Sets the status filter only. |
| ClientManagement.ClientTable.HandleSort | src/pages/client-management/components/ClientManagementTable.jsx:132-139 | The current column flips the direction; another column is selected ascending. |
| ClientManagement.ClientTable.SelectAll | src/pages/client-management/components/ClientManagementTable.jsx:141-147 | Applies select-all to the page shown. |
| ClientManagement.ClientTable.SelectClient | src/pages/client-management/components/ClientManagementTable.jsx:149-157 | Toggles that id in the selection set. |
| Common.SetToggleTwice | src/pages/client-management/components/ClientManagementTable.jsx:149-157 | Toggling the same id twice restores the set. |
| Text.Lower | src/pages/ipo-listings/index.jsx:166 | `toLowerCase` keeps the length and maps each character on its own, lower-casing the ASCII capitals. |
| Text.Upper | src/pages/add-client/components/ClientForm.jsx:37 | `toUpperCase` keeps the length and maps each character on its own, upper-casing the ASCII small letters. |
| Text.Trim | src/pages/add-client/components/ClientForm.jsx:29 | `trim` never lengthens the text and leaves no white space at either end. Text with no white space at its ends comes back unchanged. |
| Text.TrimStartSuffix | src/pages/ipo-application/components/LotSizeCalculator.jsx:32 | The white space `parseFloat` skips is taken only from the front. What is left is a suffix of the input, so the number is read from the input's own characters. |
| Text.Utf16Length | src/pages/register/components/AccountCredentialsForm.jsx:21 | `length` lies between the character count and twice it, and equals the character count when no character is above U+FFFF. |
| Text.Utf16LengthConcat | src/pages/register/components/AccountCredentialsForm.jsx:21 | `length` adds up over concatenation. |
| Common.FilterCounts | src/pages/client-management/components/ClientManagementTable.jsx:93-105 | `filter` keeps every copy of an accepted element and no copy of a rejected one. |
| Text.PadStart | src/pages/register/components/VerificationForm.jsx:71 | `padStart` gives the wider of the text and the width. The text ends the result, and every character before it is the pad. |
| ClientManagement.ClientTable.PreviousPage | src/pages/client-management/components/ClientManagementTable.jsx:442 | Steps back, clamped at 1, staying within the page count. |
| ClientManagement.ClientTable.NextPage | src/pages/client-management/components/ClientManagementTable.jsx:453 | Steps forward, clamped at the page count. |
| IpoListings.UnknownKeySortsByClosingDate | src/pages/ipo-listings/index.jsx:172-210 | An unknown sort key falls back to the closing date. |
| IpoListings.MissingNumbersSortAsZero | src/pages/ipo-listings/index.jsx:172-210 | A missing price, subscription level or minimum investment sorts as 0. |
| IpoListings.PassesStatus | src/pages/ipo-listings/index.jsx:147-161 | Tabs other than open, closed and upcoming keep every IPO. The closed and upcoming tabs keep exactly the IPOs with that status. The open tab keeps only `current` IPOs, never one whose status is `open`. |
| IpoListings.PassesSearch | src/pages/ipo-listings/index.jsx:163-169 | An empty term keeps every IPO. A term longer than both the company name and the sector keeps none. A case-insensitive match in the company name keeps the IPO. |
| IpoListings.SortValue | src/pages/ipo-listings/index.jsx:172-210 | The price, subscription and minimum-investment keys compare numbers, and every other key compares text. Text keys other than the company name are the opening or closing date. The company-name key is the name's lower-cased form, of the same length. |
| IpoListings.FilteredAndSorted | src/pages/ipo-listings/index.jsx:144-213 | Lists exactly the catalogue IPOs passing the status filter ('open' means 'current') and the term, which is matched against the company name or sector. Each appears at most as often as in the catalogue, ordered by the chosen key and direction. |
| IpoListings.NoFiltersListsEverything | src/pages/ipo-listings/index.jsx:144-213 | With 'all' and no term, the list is a permutation of the catalogue. |
| IpoListings.StatusFilters | src/pages/ipo-listings/index.jsx:216-228 | Four tabs: all, open, upcoming, closed. |
| IpoListings.StatusTabCount | src/pages/ipo-listings/index.jsx:148-228 | A status tab's count of IPOs with its status equals the length of the list that tab shows with no search. |
| IpoListings.AllTabCount | src/pages/ipo-listings/index.jsx:216-228 | The 'all' tab counts the whole catalogue, which is what it lists. |
| IpoListings.TabCountsMatchListings | src/pages/ipo-listings/index.jsx:216-228 | Each tab's count is the length of the list that tab shows with no search. |
| IpoListings.TabCount | src/pages/ipo-listings/index.jsx:216-228 | The badge of the tab at a given position counts the IPOs that tab lists with no search. |
| IpoListings.ListingsPage.constructor | src/pages/ipo-listings/index.jsx:12-18 | Opens sorted by closing date ascending, in grid mode, on 'all', loading. |
| IpoListings.ListingsPage.LoadingDone | src/pages/ipo-listings/index.jsx:250 | The loading timer ends loading. |
| IpoListings.ListingsPage.HandleSearch | src/pages/ipo-listings/index.jsx:230-252 | Sets the term, which restarts loading when it changed, and the listing follows the term. |
| IpoListings.ListingsPage.HandleSortChange | src/pages/ipo-listings/index.jsx:234-252 | Sets the field and order. |
| IpoListings.ListingsPage.HandleViewModeChange | src/pages/ipo-listings/index.jsx:239-241 | Sets the view mode without reloading. |
| IpoListings.ListingsPage.HandleStatusFilterChange | src/pages/ipo-listings/index.jsx:243-252 | Sets the status filter. |
| IpoListings.ListingsPage.ClearFilters | src/pages/ipo-listings/index.jsx:339-342 | Resets the term to '' and the status to 'all', after which the whole catalogue is listed. |
| FilterPanel.ChipIffNotDefault | src/pages/ipo-listings/components/FilterPanel.jsx:88-144 | A filter has a chip iff it is not at its default. |
| FilterPanel.PriceChipIff | src/pages/ipo-listings/components/FilterPanel.jsx:135 | The price chip is present iff min > 0 or max < 10000. |
| FilterPanel.ActiveKeysInOrder | src/pages/ipo-listings/components/FilterPanel.jsx:88-144 | Chips come in the fixed order category, status, sector, minimum investment, dates, price. |
| FilterPanel.Find | src/pages/ipo-listings/components/FilterPanel.jsx:92 | `options.find` returns an option with that value, or nothing when no option has it. |
| FilterPanel.UnknownChoiceShowsRaw | src/pages/ipo-listings/components/FilterPanel.jsx:92-96 | A value no option has is shown raw on its chip. |
| FilterPanel.GetActiveFilters | src/pages/ipo-listings/components/FilterPanel.jsx:88-144 | The chip-pushing sequence yields exactly the non-default filters in the fixed order, each with its title. |
| FilterPanel.ClearedHasNoChips | src/pages/ipo-listings/components/FilterPanel.jsx:60-144 | After clearing there are no chips. |
| FilterPanel.RemoveFilter | src/pages/ipo-listings/components/FilterPanel.jsx:73-86 | Resets only that key to its default. |
| FilterPanel.NonDefaultMembers | src/pages/ipo-listings/components/FilterPanel.jsx:88-144 | Over any key order, a key yields a chip iff it is listed and not at its default. |
| FilterPanel.RemoveDropsFrom | src/pages/ipo-listings/components/FilterPanel.jsx:73-144 | Over any key order, removing a filter drops exactly that key from the chip keys. |
| FilterPanel.RemoveDropsOnlyThatChip | src/pages/ipo-listings/components/FilterPanel.jsx:73-144 | Removing a filter drops exactly its chip and keeps the others in order. |
| FilterPanel.PriceRangeChanged | src/pages/ipo-listings/components/FilterPanel.jsx:50-54 | Only the indexed bound changes, to the parsed integer or 0. |
| FilterPanel.PriceInput | src/pages/ipo-listings/components/FilterPanel.jsx:50-54 | A typed integer is stored as it is, and a non-numeric input as 0. |
| FilterPanel.ApplyQuick | src/pages/ipo-listings/components/FilterPanel.jsx:383-419 | The quick filters set the status to current or upcoming, with Mainboard also setting the category. Nothing else changes. |
| FilterPanel.QuickFilterShowsStatusChip | src/pages/ipo-listings/components/FilterPanel.jsx:383-419 | After a quick filter the status chip is shown. |
| FilterPanel.Panel.constructor | src/pages/ipo-listings/components/FilterPanel.jsx:6-8 | Opens collapsed with the local copy equal to the props. |
| FilterPanel.Panel.SyncWithProps | src/pages/ipo-listings/components/FilterPanel.jsx:11-13 | New props replace the local copy, leaving no pending changes. |
| FilterPanel.Panel.HandleChoiceUpdate | src/pages/ipo-listings/components/FilterPanel.jsx:46-48 | Updates that key only. |
| FilterPanel.Panel.HandleDateChange | src/pages/ipo-listings/components/FilterPanel.jsx:318-335 | Updates one end of the date range only. |
| FilterPanel.Panel.HandlePriceRangeChange | src/pages/ipo-listings/components/FilterPanel.jsx:50-54 | Applies the price-input rule to the local copy. |
| FilterPanel.Panel.ApplyFilters | src/pages/ipo-listings/components/FilterPanel.jsx:56-58 | Emits the local copy. |
| FilterPanel.Panel.ResetChanges | src/pages/ipo-listings/components/FilterPanel.jsx:441 | Discards the local changes. |
| FilterPanel.Panel.ClearAllFilters | src/pages/ipo-listings/components/FilterPanel.jsx:60-71 | Sets and emits the cleared filters: every choice 'all', empty dates, price [0, 10000]. No chips remain. |
| FilterPanel.Panel.RemoveChip | src/pages/ipo-listings/components/FilterPanel.jsx:73-86 | Removes that filter, emits the result and drops only its chip. |
| FilterPanel.Panel.Quick | src/pages/ipo-listings/components/FilterPanel.jsx:383-419 | Applies and emits a quick filter at once. |
| FilterPanel.Panel.ToggleExpanded | src/pages/ipo-listings/components/FilterPanel.jsx:191 | Flips the expanded flag only. |
| SortControls.Flipped | src/pages/ipo-listings/components/SortControls.jsx:45 | The result is 'asc' or 'desc', and 'desc' exactly when the order was 'asc'. |
| SortControls.FlipTwice | src/pages/ipo-listings/components/SortControls.jsx:45 | Flipping twice restores the order. |
| SortControls.NextSort | src/pages/ipo-listings/components/SortControls.jsx:16-24 | Picking the current field flips the order, and another field gets 'asc'. The emitted order is always 'asc' or 'desc'. |
| SortControls.DirectionButton | src/pages/ipo-listings/components/SortControls.jsx:45 | Keeps the field and emits a different, valid order. |
| SortControls.PickTwice | src/pages/ipo-listings/components/SortControls.jsx:16-24 | Picking the same field twice restores the order if it was current, and ends descending otherwise. |
| SortControls.PickCurrentIsDirectionButton | src/pages/ipo-listings/components/SortControls.jsx:16-45 | Picking the current field does what the direction button does. |
| SearchBar.Matching | src/pages/ipo-listings/components/SearchBar.jsx:12-14 | Exactly the suggestions containing the term, ignoring case. |
| SearchBar.ContainsNoLonger | src/pages/ipo-listings/components/SearchBar.jsx:12-14 | A matching suggestion is at least as long as the term. |
| SearchBar.EmptyTermMatchesAll | src/pages/ipo-listings/components/SearchBar.jsx:12-14 | The empty term matches every suggestion, in order. |
| SearchBar.PickedSuggestionMatches | src/pages/ipo-listings/components/SearchBar.jsx:12-14 | A suggestion matches itself, so a picked suggestion never empties the list. |
| SearchBar.SearchBox.constructor | src/pages/ipo-listings/components/SearchBar.jsx:6-8 | Opens with an empty term and the dropdown hidden. |
| SearchBar.SearchBox.RefreshSuggestions | src/pages/ipo-listings/components/SearchBar.jsx:10-20 | For a non-empty term the list is the matching suggestions, and the dropdown is shown iff one matches. An empty term hides it. |
| SearchBar.SearchBox.SetSuggestions | src/pages/ipo-listings/components/SearchBar.jsx:10-20 | New suggestions re-run the effect. |
| SearchBar.SearchBox.HandleInputChange | src/pages/ipo-listings/components/SearchBar.jsx:22-26 | Every keystroke sets and forwards the term. The dropdown then shows iff the term is non-empty and a suggestion matches. |
| SearchBar.SearchBox.HandleSuggestionClickAsWritten | src/pages/ipo-listings/components/SearchBar.jsx:10-32 | As written: the pick is set and forwarded, but a pick that differs from the term reopens the dropdown. |
| SearchBar.SearchBox.HandleSuggestionClick | src/pages/ipo-listings/components/SearchBar.jsx:28-32 | Corrected: the pick is set and forwarded and the dropdown stays hidden. |
| SearchBar.SearchBox.ClearSearch | src/pages/ipo-listings/components/SearchBar.jsx:34-38 | Sets the term to '', forwards '' and hides the dropdown. |
| SearchBar.PickReopensAsWritten | src/pages/ipo-listings/components/SearchBar.jsx:10-32 | Typing a term and picking a different matching suggestion leaves the dropdown open. |
| SearchBar.PickClosesCorrected | src/pages/ipo-listings/components/SearchBar.jsx:28-32 | With the corrected click the same events leave it closed. |
| AllotmentStatus.ReplaceFirstSpace | src/pages/allotment-status/components/AllotmentStatusTable.jsx:119 | `replace(' ', '-')` keeps the length and every non-space character, and puts '-' only where there was a space or a dash. |
| AllotmentStatus.StatusSlug | src/pages/allotment-status/components/AllotmentStatusTable.jsx:119 | The slug is as long as the status. |
| AllotmentStatus.OnlyFirstSpaceDashed | src/pages/allotment-status/components/AllotmentStatusTable.jsx:119 | Only the first space becomes a dash; later spaces stay. |
| AllotmentStatus.TwoWordSlug | src/pages/allotment-status/components/AllotmentStatusTable.jsx:119 | Two words give "first-second", lower-cased. |
| AllotmentStatus.NotAllottedSlug | src/pages/allotment-status/components/AllotmentStatusTable.jsx:119 | 'Not Allotted' gives 'not-allotted'. |
| AllotmentStatus.FilteredApplications | src/pages/allotment-status/components/AllotmentStatusTable.jsx:116-121 | Exactly the applications passing the search and the status filter, each at most as often as given. |
| AllotmentStatus.ClientSearchIgnoresClientName | src/pages/allotment-status/components/AllotmentStatusTable.jsx:117-118 | For anyone but a sub-broker, the client name plays no part in the search. |
| AllotmentStatus.SubbrokerFindsClient | src/pages/allotment-status/components/AllotmentStatusTable.jsx:117-118 | A sub-broker finds an application by its client's name. |
| AllotmentStatus.NoQueryListsAll | src/pages/allotment-status/components/AllotmentStatusTable.jsx:116-121 | The 'all' tab with no query lists every application in order. |
| AllotmentStatus.EmptyStateIff | src/pages/allotment-status/components/AllotmentStatusTable.jsx:318 | The empty state shows iff no application passes. |
| AllotmentStatus.ApplicationNumber | src/pages/allotment-status/components/AllotmentStatusTable.jsx:304 | 'IPO2024' followed by digits only. |
| AllotmentStatus.ApplicationNumberRoundTrip | src/pages/allotment-status/components/AllotmentStatusTable.jsx:304 | The digits read back to the id, and ids below 10^6 give exactly 13 characters (six zero-padded digits). |
| AllotmentStatus.AllotmentTable.constructor | src/pages/allotment-status/components/AllotmentStatusTable.jsx:12-13 | Opens with no sort key, 'asc', and no expanded rows. |
| AllotmentStatus.AllotmentTable.HandleSort | src/pages/allotment-status/components/AllotmentStatusTable.jsx:98-104 | Sets the key, with 'desc' only when the key is unchanged and the direction was 'asc'. |
| AllotmentStatus.AllotmentTable.ToggleRowExpansion | src/pages/allotment-status/components/AllotmentStatusTable.jsx:106-114 | Toggles that row in the expanded set. |
| Breadcrumbs.Split | src/components/ui/Breadcrumb.jsx:19 | `split('/')` gives at least one part, none containing '/'. |
| Breadcrumbs.JoinSplit | src/components/ui/Breadcrumb.jsx:19 | Joining the parts with '/' gives back the path. |
| Breadcrumbs.SegmentsWellFormed | src/components/ui/Breadcrumb.jsx:19 | The segments are non-empty and slash-free, so repeated and trailing slashes are ignored. |
| Breadcrumbs.PathFromExtends | src/components/ui/Breadcrumb.jsx:22-25 | Appending segments to a path extends it, and appending at least one makes it strictly longer. |
| Breadcrumbs.CrumbsGrow | src/components/ui/Breadcrumb.jsx:22-33 | Each crumb's path is a mapped '/'-joined prefix of the segments, and the paths are strictly growing prefixes. |
| Breadcrumbs.CrumbsForSegments | src/components/ui/Breadcrumb.jsx:20-35 | The loop builds Home followed by the crumbs for the segments. |
| Breadcrumbs.GenerateBreadcrumbs | src/components/ui/Breadcrumb.jsx:18-36 | Home at '/' first, then the crumbs of the path's segments. |
| Breadcrumbs.Rendered | src/components/ui/Breadcrumb.jsx:40-42 | A trail that starts at Home is drawn iff it holds more than Home. |
| Breadcrumbs.CrumbsFromNonEmptyIff | src/components/ui/Breadcrumb.jsx:22-33 | The loop pushes a crumb iff one of the paths it builds is a key of the crumb map. |
| Breadcrumbs.RenderedIffKnownPath | src/components/ui/Breadcrumb.jsx:18-42 | A page's trail is drawn iff some path along its segments is a known page. |
| Breadcrumbs.ApplicationTrail | src/components/ui/Breadcrumb.jsx:8-33 | '/ipo-application' yields the IPO Application crumb after Home. |
| Breadcrumbs.RootTrail | src/components/ui/Breadcrumb.jsx:19-42 | '/' yields only Home, so nothing is rendered. |
| Breadcrumbs.UnknownPageTrail | src/components/ui/Breadcrumb.jsx:22-42 | An unmapped page yields only Home. |
| Breadcrumbs.ShortLabel | src/components/ui/Breadcrumb.jsx:55 | The short label is the text before the first space. |
| Breadcrumbs.ShortLabelExamples | src/components/ui/Breadcrumb.jsx:55 | 'IPO Application' gives 'IPO' and 'Home' gives 'Home'. |
| Notifications.UnreadCount | src/components/ui/NotificationDropdown.jsx:112 | Counts unread entries: at most the list's length, and 0 iff all are read. |
| Notifications.MarkRead | src/components/ui/NotificationDropdown.jsx:94-100 | Sets isRead on entries with that id. Every other field, the length and the order are unchanged. |
| Notifications.MarkReadIdempotent | src/components/ui/NotificationDropdown.jsx:94-100 | Marking read twice is marking once. |
| Notifications.MarkReadCount | src/components/ui/NotificationDropdown.jsx:94-112 | The unread count drops by the number of unread entries with that id. |
| Notifications.MarkOneUnread | src/components/ui/NotificationDropdown.jsx:94-112 | With unique ids, marking an unread entry lowers the count by exactly one, and a read one leaves it. |
| Notifications.MarkReadOne | src/pages/client-dashboard/components/NotificationAlerts.jsx:87-93 | With unique ids, marking by id changes only that entry's isRead. |
| Notifications.MarkAllRead | src/components/ui/NotificationDropdown.jsx:106-110 | Every entry becomes read, and nothing else changes. |
| Notifications.AllReadCount | src/components/ui/NotificationDropdown.jsx:106-112 | After marking all read the unread count is 0. |
| Notifications.MarkingKeepsIdsUnique | src/components/ui/NotificationDropdown.jsx:94-110 | Marking keeps the ids unique. |
| Notifications.Dismiss | src/components/ui/NotificationDropdown.jsx:102-104 | Removes exactly the entries with that id and keeps the rest. |
| Notifications.DismissAbsent | src/components/ui/NotificationDropdown.jsx:102-104 | Dismissing an absent id changes nothing. |
| Notifications.DismissConcat | src/components/ui/NotificationDropdown.jsx:102-104 | Dismissal works piecewise, so the order is kept. |
| Notifications.DismissOne | src/pages/client-dashboard/components/NotificationAlerts.jsx:95-97 | With unique ids, dismissing entry k removes exactly position k, and the ids left are still unique. |
| Notifications.RemovingKeepsIdsUnique | src/pages/client-dashboard/components/NotificationAlerts.jsx:95-97 | Removing one entry from a list without repeated ids leaves none repeated. |
| Notifications.FirstFew | src/components/ui/NotificationDropdown.jsx:113 | The first min(n, k) entries. |
| Notifications.NotificationIcon | src/components/ui/NotificationDropdown.jsx:74-82 | The bell iff the type is not deadline, allotment, payment or listing. |
| Notifications.IconColor | src/components/ui/NotificationDropdown.jsx:84-92 | A high priority is red and a medium one amber, whatever the type. Otherwise the colour is by type, defaulting to muted. |
| NotificationDropdown.Dropdown.constructor | src/components/ui/NotificationDropdown.jsx:8-72 | Opens with the given list, whose ids are unique. |
| NotificationDropdown.Dropdown.ViewAllIffHidden | src/components/ui/NotificationDropdown.jsx:113 | The first five entries are shown, and 'View all' appears iff some entry is hidden. |
| NotificationDropdown.Dropdown.MarkAsRead | src/components/ui/NotificationDropdown.jsx:94-100 | Marks that id read. |
| NotificationDropdown.Dropdown.ClickEntry | src/components/ui/NotificationDropdown.jsx:161 | Clicking an unread entry marks it read and lowers the count by one. A read entry changes nothing. |
| NotificationDropdown.Dropdown.DismissNotification | src/components/ui/NotificationDropdown.jsx:102-104 | Removes exactly that entry and keeps the rest in order. |
| NotificationDropdown.Dropdown.MarkAllAsRead | src/components/ui/NotificationDropdown.jsx:106-110 | Offered only with unread entries. Afterwards the count is 0 and 'all caught up' shows. |
| NotificationAlerts.Alerts.constructor | src/pages/client-dashboard/components/NotificationAlerts.jsx:6-55 | Opens collapsed with the given list. |
| NotificationAlerts.Alerts.DisplayedEntries | src/pages/client-dashboard/components/NotificationAlerts.jsx:100-118 | Collapsed, at most the first three show; expanded, all show; without the toggle, all already show. |
| NotificationAlerts.Alerts.ToggleShowAll | src/pages/client-dashboard/components/NotificationAlerts.jsx:118-126 | Offered only with more than three entries, and flips the flag. |
| NotificationAlerts.Alerts.MarkAsRead | src/pages/client-dashboard/components/NotificationAlerts.jsx:87-93 | Changes only that entry's isRead, and the count drops by one if it was unread. |
| NotificationAlerts.Alerts.DismissNotification | src/pages/client-dashboard/components/NotificationAlerts.jsx:95-97 | Removes only that entry and keeps the rest in order. |
| NotificationAlerts.CardColor | src/pages/client-dashboard/components/NotificationAlerts.jsx:67-75 | Priority comes before type; the default is the plain card. |
| NotificationPanel.PanelIcon | src/pages/subbroker-dashboard/components/NotificationPanel.jsx:59-68 | The bell iff the type is not among the panel's five. |
| NotificationPanel.PanelColor | src/pages/subbroker-dashboard/components/NotificationPanel.jsx:70-76 | High priority wins. Otherwise allotments and payments are green, openings blue and the rest muted. |
| NotificationPanel.PriorityBadge | src/pages/subbroker-dashboard/components/NotificationPanel.jsx:78-85 | An unknown priority gets the 'Low' badge. |
| NotificationPanel.Panel.constructor | src/pages/subbroker-dashboard/components/NotificationPanel.jsx:6-57 | Opens with the given list. |
| NotificationPanel.Panel.MarkAsRead | src/pages/subbroker-dashboard/components/NotificationPanel.jsx:87-148 | Changes only that entry's isRead, and the count drops by one if it was unread. |
| NotificationPanel.Panel.MarkAllAsRead | src/pages/subbroker-dashboard/components/NotificationPanel.jsx:95-120 | Offered while the button is enabled. Every entry becomes read and the button turns disabled. |
| TopClients.SortedClients | src/pages/subbroker-dashboard/components/TopClientsTable.jsx:88-93 | A permutation of the clients. Investment, allotments and applications sort non-increasing, and any other key sorts by name ascending. |
| TopClients.TopRankedInvestsMost | src/pages/subbroker-dashboard/components/TopClientsTable.jsx:88-89 | The top row has the largest total investment. |
| TopClients.Rows | src/pages/subbroker-dashboard/components/TopClientsTable.jsx:152-154 | Each row's rank badge is its position + 1, beside the sorted client. |
| TopClients.RanksAreDistinct | src/pages/subbroker-dashboard/components/TopClientsTable.jsx:152-154 | Ranks strictly increase, and the rows hold exactly the clients. |
| TopClients.ClientLink | src/pages/subbroker-dashboard/components/TopClientsTable.jsx:95-97 | The client page's path, whose query parameter reads back to the id. |
| TopClients.Table.constructor | src/pages/subbroker-dashboard/components/TopClientsTable.jsx:8 | Sorted by investment at first. |
| TopClients.Table.SetSortBy | src/pages/subbroker-dashboard/components/TopClientsTable.jsx:107 | A new column reorders the same clients. |
| TopClients.Table.ClientClick | src/pages/subbroker-dashboard/components/TopClientsTable.jsx:95-139 | A row click goes to that row's client. |
| IpoOpportunities.FilteredIpos | src/pages/subbroker-dashboard/components/IPOOpportunities.jsx:88-95 | Exactly the IPOs passing the tab's test: status for current and upcoming, category for mainboard and SME. |
| IpoOpportunities.UnknownTabKeepsAll | src/pages/subbroker-dashboard/components/IPOOpportunities.jsx:89-94 | 'all' and any unknown tab keep every IPO. |
| IpoOpportunities.FilterKeepsOrder | src/pages/subbroker-dashboard/components/IPOOpportunities.jsx:88-95 | Filtering works piecewise, so the order is kept. |
| IpoOpportunities.Categories | src/pages/subbroker-dashboard/components/IPOOpportunities.jsx:63-69 | Five tabs: all, current, upcoming, mainboard, sme. |
| IpoOpportunities.StatusTabCount | src/pages/subbroker-dashboard/components/IPOOpportunities.jsx:63-95 | The current and upcoming badges count what their tabs show. |
| IpoOpportunities.BoardTabCount | src/pages/subbroker-dashboard/components/IPOOpportunities.jsx:63-95 | The mainboard and SME badges count what their tabs show. |
| IpoOpportunities.TabCountsMatchLists | src/pages/subbroker-dashboard/components/IPOOpportunities.jsx:63-95 | Each tab's count is the length of the list it shows. |
| IpoOpportunities.TabCount | src/pages/subbroker-dashboard/components/IPOOpportunities.jsx:63-95 | The same, for the tab at a given position. |
| IpoOpportunities.StatusBadge | src/pages/subbroker-dashboard/components/IPOOpportunities.jsx:71-86 | An unknown status gets the 'Closed' style. |
| IpoOpportunities.OpportunitiesCard.constructor | src/pages/subbroker-dashboard/components/IPOOpportunities.jsx:6 | Opens on 'all'. |
| IpoOpportunities.OpportunitiesCard.SelectCategory | src/pages/subbroker-dashboard/components/IPOOpportunities.jsx:111 | A tab click selects it, and the list then holds as many IPOs as its badge says. |

## Left out

- Network calls, `localStorage`, `window` events, `alert`, `console.log`, `navigate` and `navigator.clipboard` are side effects without logic. Back-end answers are parameters (`OtpResponse`), and navigation targets are returned values (`ClientLink`).
- Timers and effect re-runs are explicit methods (`Tick`, `TimerFires`, `Complete…`, `RefreshSuggestions`, `SelectClients`, `SyncWithProps`, `LoadingDone`). Interleavings that React batching could produce are not modelled.
- Locale formatting (`toLocaleString`, `Intl.NumberFormat`, `toFixed`), date strings and wall-clock arithmetic are out. Dates are opaque strings, compared with `StrLe` where the source sorts by them.
- Floating point is out: money is exact `real`, so charge amounts carry no IEEE rounding.
- CSS classes and icon names are kept only for the lookup tables the components branch on. The client-management status badges and the allotment table's status colour and icon lookups are not modelled.
- Text.StrLe: strings are compared character by character on Unicode scalar values. JavaScript's `<` compares UTF-16 code units, and the two orders differ when a character above U+FFFF meets one in U+E000 to U+FFFF: JavaScript puts "😀" before "Ａ", `StrLe` puts it after. `localeCompare` collation is not modelled either; every such comparison uses `StrLe`.
- Text.Utf16Length: `length` and `maxLength` count UTF-16 code units. The model uses `Utf16Length` where the source measures free text: the password length item and the contact-verification code fields. Elsewhere it uses the character count `|s|`. That is only where the string is all digits (the OTP boxes, normalised phone numbers), or ASCII by the pattern that accepted it (PAN, UPI), or only compared with 0 (the search term). In all of these the two counts agree. The `maxLength` limits of the registration form's other inputs are not modelled.
- Sorting.SortBy: `Array.prototype.sort` is stable, and so is the model's insertion sort, since `Insert` puts an element in front of the later elements it ties with. Ties therefore keep their input order in both, but no contract states this stability; the contracts state sortedness and permutation only.
- The client-management roster, the IPO catalogue and the notification lists are constructor parameters rather than the hard-coded mock arrays.
- The allotment table ignores its `applications` prop and renders its own mock list, and it never applies `sortConfig` to what it shows. The model takes the rows as given and keeps `sortConfig` as state only.
- Filter panel records are complete (every key present). The `|| [0, 10000]` fallback for a missing price range is not modelled.
- The notification lists' settings and 'View all' navigation buttons do nothing beyond navigation and are not modelled. Every notification is assumed to carry its `isRead` flag.
- LotCalculation.LotCalculator.LotChange / IpoWizard.StepComponent: for a client, the wizard builds the one-element default client list as a new array on every render (index.jsx:131-144). The calculator's `[selectedClients]` effect (LotSizeCalculator.jsx:20-29) resets every allocation to one lot whenever that array changes identity. Its calculation effect (84-108) reports to the wizard, whose state update re-renders it with yet another array. Read from the source text and not executed, this means a client's lot edits do not stick: each cycle resets them to one lot. The model substitutes the default client once, as rendered, and keeps the edit that `LotChange` stores. It does not model the re-created array, the reset it triggers, or the update cycle.
- Login.LoginForm.CompleteVerification: the failure branch ('Authentication failed') is unreachable, because the captured number passed `validateMobile` before the code step was reached. So it is not modelled. The `auth-change` event and the navigation to the dashboard are folded into the `authenticated` flag.
- MobileVerification.OtpVerificationForm.VerifyCode: the loading delay before the check is modelled as a separate `CompleteVerification` step.
- IpoWizard.DispatchFollowsSteps: for a non-sub-broker, raw step 5 still renders the review component (the `case 5` branch), but no step 5 is reachable for that role. The lemma excludes that step number.
- Registration.RegisterPage.Submit: the registration API is a two-second timer; `CompleteSubmission` stands for its success. The failure path only logs.
- Text.Lower / Text.Upper: case mapping covers the ASCII letters only. Unicode mappings such as `ı` to `I` or `ß` to `SS` are not modelled, so AddClient.PanAccepted rejects a PAN that relies on one.
- Text.Trim: white space is the fixed set of ECMAScript white space and line terminators written out in `IsSpace`. Any later Unicode additions to that set are not modelled.
- Numbers.ParseFloat: `Infinity` and `-Infinity` are not modelled, and neither is the rounding of the decimal value to a double. Exponents are modelled: `1e2` reads as 100, as LotCalculation.EffectivePrice then uses it.
- Numbers.ParseInt: `parseInt` is called without a radix, so JavaScript reads a leading `0x` as hexadecimal. The model does not: it reads `0x1A` as 0, because the digit run stops at the `x`.
- ContactVerification.VerificationForm.Send: the send handlers' "OTP sent" alerts are not modelled.

## Findings

| source | as written | input that shows it | evidently intended | confidence | as-written member | corrected member |
|---|---|---|---|---|---|---|
| src/pages/client-management/components/BulkUploadModal.jsx:48-86 | `resetUpload` (also run by close and confirm) does not clear the processing `setTimeout`, so a stale timer later switches the dialog to 'results' | drop "clients.xlsx", then close the dialog within two seconds: the dialog shows results with no uploaded file | resetting cancels the pending processing timer and the dialog stays on 'upload' | medium (not executed) | BulkUpload.StaleTimerAsWritten | BulkUpload.StaleTimerCancelled |
| src/pages/ipo-listings/components/SearchBar.jsx:10-32 | `handleSuggestionClick` hides the dropdown, but changing `searchTerm` re-runs the effect, which finds the picked suggestion among its own matches and shows the dropdown again | type "Tata" with the suggestion "Tata Motors" available, then pick "Tata Motors": the dropdown reopens | picking a suggestion leaves the dropdown closed | medium (not executed) | SearchBar.PickReopensAsWritten | SearchBar.PickClosesCorrected |
