/**
 * The send-money dialog: a three-screen wizard (contact, amount, confirm) over
 * four form fields.
 */
module SendMoney {

  datatype Step = ContactStep | AmountStep | ConfirmStep
  datatype PaymentMethod = Wallet | Bank

  /** `handleNext`: contact → amount once a contact is chosen, amount → confirm once an amount is typed. */
  function NextStep(step: Step, selectedContact: string, amount: string): Step {
    if step == ContactStep && selectedContact != "" then AmountStep
    else if step == AmountStep && amount != "" then ConfirmStep
    else step
  }

  /** `handleBack`: one screen back, none from the first. */
  function BackStep(step: Step): Step {
    match step
    case ContactStep => ContactStep
    case AmountStep => ContactStep
    case ConfirmStep => AmountStep
  }

  /** Next and Back undo each other whenever Next actually moves. */
  lemma NextThenBack(step: Step, selectedContact: string, amount: string)
    ensures NextStep(step, selectedContact, amount) != step ==> BackStep(NextStep(step, selectedContact, amount)) == step
    ensures step == AmountStep && selectedContact != "" ==> NextStep(BackStep(step), selectedContact, amount) == step
    ensures step == ConfirmStep && amount != "" ==> NextStep(BackStep(step), selectedContact, amount) == step
    ensures NextStep(step, selectedContact, amount) == step <==>
            step == ConfirmStep || (step == ContactStep && selectedContact == "") || (step == AmountStep && amount == "")
  {
  }

  /** The dialog's state. */
  class Dialog {
    var selectedContact: string
    var amount: string
    var note: string
    var paymentMethod: PaymentMethod
    var step: Step
    /** Set when the dialog asks its parent to close it. */
    var closeRequested: bool

    /** A screen past the first is shown only with the fields its predecessors require. */
    ghost predicate Valid()
      reads this
    {
      && (step != ContactStep ==> selectedContact != "")
      && (step == ConfirmStep ==> amount != "")
    }

    ghost predicate IsInitial()
      reads this
    {
      selectedContact == "" && amount == "" && note == "" && paymentMethod == Wallet && step == ContactStep
    }

    constructor ()
      ensures Valid() && IsInitial() && !closeRequested
    {
      selectedContact := "";
      amount := "";
      note := "";
      paymentMethod := Wallet;
      step := ContactStep;
      closeRequested := false;
    }

    /** Clicking a contact card, which the contact screen shows. */
    method SelectContact(id: string)
      requires Valid() && step == ContactStep
      modifies this`selectedContact
      ensures Valid() && selectedContact == id
    {
      selectedContact := id;
    }

    /** Typing in the amount box, which the amount screen shows. */
    method SetAmount(value: string)
      requires Valid() && step == AmountStep
      modifies this`amount
      ensures Valid() && amount == value
    {
      amount := value;
    }

    /** `handleNext`. */
    method Next()
      requires Valid()
      modifies this`step
      ensures Valid() && step == NextStep(old(step), selectedContact, amount)
    {
      if step == ContactStep && selectedContact != "" {
        step := AmountStep;
      } else if step == AmountStep && amount != "" {
        step := ConfirmStep;
      }
    }

    /** `handleBack`. */
    method Back()
      requires Valid()
      modifies this`step
      ensures Valid() && step == BackStep(old(step))
    {
      if step == AmountStep {
        step := ContactStep;
      } else if step == ConfirmStep {
        step := AmountStep;
      }
    }

    /** `handleSend`: close and reset every field (the transfer itself is only logged). */
    method Send()
      modifies this
      ensures Valid() && IsInitial() && closeRequested
    {
      closeRequested := true;
      selectedContact := "";
      amount := "";
      note := "";
      paymentMethod := Wallet;
      step := ContactStep;
    }
  }
}
