// The donation screen's view model
// (ViewModels/Store/User/Contribute/DonationViewModel.swift): the amount
// check that enables the donate button, the recipient's name and type, and
// the simulated payment.

module Donation {
  import opened Models

  const MinimumDonation: real := 100.0
  const MaximumDonation: real := 50000.0

  /** The preset amounts the donation view offers. */
  const PresetAmounts: seq<real> := [100.0, 500.0, 1000.0, 5000.0]

  /** `isValidDonation`. */
  predicate IsValidDonation(amount: real) {
    amount >= 100.0 && amount <= 50000.0
  }

  /** Both bounds are inclusive, and nothing outside them passes. */
  lemma ValidDonationBounds(amount: real)
    ensures IsValidDonation(MinimumDonation) && IsValidDonation(MaximumDonation)
    ensures amount < MinimumDonation ==> !IsValidDonation(amount)
    ensures amount > MaximumDonation ==> !IsValidDonation(amount)
    ensures MinimumDonation <= amount <= MaximumDonation ==> IsValidDonation(amount)
  {
  }

  /** The starting amount 0 is invalid, so the donate button starts
      disabled; every preset amount is valid. */
  lemma InitialAndPresetAmounts()
    ensures !IsValidDonation(0.0)
    ensures forall i :: 0 <= i < |PresetAmounts| ==> IsValidDonation(PresetAmounts[i])
  {
  }

  /** What kind of recipient the screen was opened for. */
  datatype RecipientKind = ChurchRecipient | MissionaryRecipient | MinistryRecipient | OtherRecipient

  datatype Recipient = Recipient(kind: RecipientKind, id: string, name: string)

  /** `recipientType`. */
  function RecipientType(r: Recipient): (t: string)
    ensures t == "Organization" <==> r.kind == OtherRecipient
  {
    match r.kind
    case ChurchRecipient => "Church"
    case MissionaryRecipient => "Missionary"
    case MinistryRecipient => "Ministry"
    case OtherRecipient => "Organization"
  }

  /** The type names tell the recipient kinds apart. */
  lemma RecipientTypeInjective(a: Recipient, b: Recipient)
    requires RecipientType(a) == RecipientType(b)
    ensures a.kind == b.kind
  {
  }

  /** `recipientName`. */
  function RecipientName(r: Recipient): (n: string)
    ensures n == r.name
  {
    r.name
  }

  datatype PaymentMethod = GCash | BankTransfer

  /** The alert and error fields `processDonation` writes. */
  datatype Alerts = Alerts(showSuccessAlert: bool, showErrorAlert: bool, errorMessage: Option<string>)

  /** The alerts after `processDonation`; `delay` is how the one-second
      sleep ended. */
  function AfterDonation(a: Alerts, delay: Fetched<()>): Alerts {
    match delay
    case Ok(_) => a.(showSuccessAlert := true)
    case Failed(description) => a.(showErrorAlert := true, errorMessage := Some(description))
  }

  /** Success shows only the success alert; failure shows the error alert
      and message and leaves the success alert alone. */
  lemma DonationOutcomes(a: Alerts, description: string)
    ensures AfterDonation(a, Ok(())).showSuccessAlert
    ensures AfterDonation(a, Ok(())).showErrorAlert == a.showErrorAlert
    ensures AfterDonation(a, Ok(())).errorMessage == a.errorMessage
    ensures AfterDonation(a, Failed(description)).showErrorAlert
    ensures AfterDonation(a, Failed(description)).errorMessage == Some(description)
    ensures AfterDonation(a, Failed(description)).showSuccessAlert == a.showSuccessAlert
  {
  }

  class DonationViewModel {
    var selectedAmount: real
    var selectedPaymentMethod: PaymentMethod
    var showSuccessAlert: bool
    var showErrorAlert: bool
    var errorMessage: Option<string>
    const recipient: Recipient

    function CurrentAlerts(): Alerts
      reads this
    {
      Alerts(showSuccessAlert, showErrorAlert, errorMessage)
    }

    constructor (recipient: Recipient)
      ensures this.recipient == recipient
      ensures selectedAmount == 0.0 && selectedPaymentMethod == GCash
      ensures CurrentAlerts() == Alerts(false, false, None)
      ensures !IsValidDonation(selectedAmount)
    {
      this.recipient := recipient;
      selectedAmount := 0.0;
      selectedPaymentMethod := GCash;
      showSuccessAlert := false;
      showErrorAlert := false;
      errorMessage := None;
    }

    /** `processDonation`: the amount and payment method are never read. */
    method ProcessDonation(delay: Fetched<()>)
      modifies this`showSuccessAlert, this`showErrorAlert, this`errorMessage
      ensures CurrentAlerts() == AfterDonation(old(CurrentAlerts()), delay)
    {
      match delay {
        case Ok(_) =>
          showSuccessAlert := true;
        case Failed(description) =>
          errorMessage := Some(description);
          showErrorAlert := true;
      }
    }
  }
}
