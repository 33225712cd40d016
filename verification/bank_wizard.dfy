/**
 * The bank onboarding wizard of BankDashboard.jsx: a showcase page, then four
 * steps (registration, license agreement, payment, download) walked with
 * Continue and Back. Each control exists only on the screen that renders it,
 * so an action is possible only where `Offered` says; that is what keeps the
 * wizard's invariant.
 *
 * `alert` and the download link (`window.open`) are outside the model: an
 * alert leaves the state as it was.
 */
module BankWizard {

  datatype State = State(
    showSteps: bool,
    activeStep: int,
    bankName: string,
    bankId: string,
    agreementChecked: bool,
    paymentCompleted: bool)

  /** The controls of the page. */
  datatype Action =
    | StartDownload
    | Continue
    | Back
    | EditBankName(name: string)
    | EditBankId(id: string)
    | ToggleAgreement
    | ProcessPayment

  /** The state of the first render. */
  const Initial := State(false, 1, "", "", false, false)

  /** Whether the control of an action is on screen. */
  predicate Offered(s: State, a: Action)
    ensures !s.showSteps ==> (Offered(s, a) <==> a.StartDownload?)
    ensures s.showSteps && s.activeStep == 4 ==> (Offered(s, a) <==> a.Back?)
  {
    match a
    case StartDownload => !s.showSteps
    case Continue => s.showSteps && s.activeStep < 4
    case Back => s.showSteps && s.activeStep > 1
    case EditBankName(_) => s.showSteps && s.activeStep == 1
    case EditBankId(_) => s.showSteps && s.activeStep == 1
    case ToggleAgreement => s.showSteps && s.activeStep == 2
    case ProcessPayment => s.showSteps && s.activeStep == 3
  }

  /** `handleNextStep`. */
  function NextStep(s: State): (t: State)
    ensures t.activeStep == s.activeStep || t.activeStep == s.activeStep + 1
    ensures t.activeStep == s.activeStep + 1 ==>
      && (s.activeStep == 1 ==> s.bankName != "" && s.bankId != "")
      && (s.activeStep == 2 ==> s.agreementChecked)
      && (s.activeStep == 3 ==> s.paymentCompleted)
    ensures t.activeStep == s.activeStep ==> t.(paymentCompleted := s.paymentCompleted) == s
    ensures s.paymentCompleted ==> t.paymentCompleted
  {
    if s.activeStep == 1 && (s.bankName == "" || s.bankId == "") then s
    else if s.activeStep == 2 && !s.agreementChecked then s
    else if s.activeStep == 3 && !s.paymentCompleted then s.(paymentCompleted := true)
    else s.(activeStep := s.activeStep + 1)
  }

  /** The state after an action whose control is on screen. */
  function Apply(s: State, a: Action): (t: State)
    requires Offered(s, a)
    ensures -1 <= t.activeStep - s.activeStep <= 1
    ensures s.showSteps ==> t.showSteps
    ensures s.paymentCompleted ==> t.paymentCompleted
  {
    match a
    case StartDownload => s.(showSteps := true)
    case Continue => NextStep(s)
    case Back => s.(activeStep := s.activeStep - 1)
    case EditBankName(name) => s.(bankName := name)
    case EditBankId(id) => s.(bankId := id)
    case ToggleAgreement => s.(agreementChecked := !s.agreementChecked)
    case ProcessPayment => s.(paymentCompleted := true)
  }

  /** The step is 1..4, a later step was only reached with the earlier steps' requirements met. */
  predicate Inv(s: State)
  {
    && 1 <= s.activeStep <= 4
    && (!s.showSteps ==> s.activeStep == 1)
    && (s.activeStep >= 2 ==> s.bankName != "" && s.bankId != "")
    && (s.activeStep >= 3 ==> s.agreementChecked)
    && (s.activeStep == 4 ==> s.paymentCompleted)
  }

  /** Every action on screen keeps the invariant, moves the step by at most one, and never undoes a payment. */
  lemma ApplyKeepsInv(s: State, a: Action)
    requires Inv(s) && Offered(s, a)
    ensures Inv(Apply(s, a))
    ensures -1 <= Apply(s, a).activeStep - s.activeStep <= 1
    ensures s.paymentCompleted ==> Apply(s, a).paymentCompleted
    ensures s.showSteps ==> Apply(s, a).showSteps
  {
  }

  /** What Continue does on each step. */
  lemma ContinueGuards(s: State)
    requires Inv(s) && Offered(s, Continue)
    ensures s.activeStep == 1 ==>
      (Apply(s, Continue).activeStep == 2 <==> s.bankName != "" && s.bankId != "")
    ensures s.activeStep == 2 ==> (Apply(s, Continue).activeStep == 3 <==> s.agreementChecked)
    ensures s.activeStep == 3 && !s.paymentCompleted ==>
      Apply(s, Continue) == s.(paymentCompleted := true) && Apply(Apply(s, Continue), Continue).activeStep == 4
    ensures s.activeStep == 3 && s.paymentCompleted ==> Apply(s, Continue).activeStep == 4
    ensures Apply(s, Continue).activeStep == s.activeStep ==>
      Apply(s, Continue).(paymentCompleted := s.paymentCompleted) == s
  {
  }

  /** The state after a sequence of clicks; a click on a control that is not on screen cannot happen and is skipped. */
  function Run(s: State, actions: seq<Action>): (t: State)
    ensures s.showSteps ==> t.showSteps
    ensures s.paymentCompleted ==> t.paymentCompleted
    decreases |actions|
  {
    if actions == [] then s
    else if Offered(s, actions[0]) then Run(Apply(s, actions[0]), actions[1..])
    else Run(s, actions[1..])
  }

  /** Whatever the user clicks, the invariant holds and a completed payment stays completed. */
  lemma {:induction false} RunKeepsInv(s: State, actions: seq<Action>)
    requires Inv(s)
    ensures Inv(Run(s, actions))
    ensures s.paymentCompleted ==> Run(s, actions).paymentCompleted
    decreases |actions|
  {
    if actions != [] {
      if Offered(s, actions[0]) {
        ApplyKeepsInv(s, actions[0]);
        RunKeepsInv(Apply(s, actions[0]), actions[1..]);
      } else {
        RunKeepsInv(s, actions[1..]);
      }
    }
  }

  /** Every state reachable from the first render satisfies the invariant. */
  lemma ReachableStatesAreValid(actions: seq<Action>)
    ensures Inv(Run(Initial, actions))
  {
    RunKeepsInv(Initial, actions);
  }

  /** The shortest way to the download step: open the wizard, register, agree, pay and continue. */
  lemma DownloadIsReachable()
    ensures Run(Initial, [StartDownload, EditBankName("B"), EditBankId("1"), Continue, ToggleAgreement,
                          Continue, Continue, Continue]).activeStep == 4
  {
  }

  /** The component's state variables. */
  class Dashboard {
    var showSteps: bool
    var activeStep: int
    var bankName: string
    var bankId: string
    var agreementChecked: bool
    var paymentCompleted: bool

    function Snapshot(): State
      reads this
    {
      State(showSteps, activeStep, bankName, bankId, agreementChecked, paymentCompleted)
    }

    ghost predicate Valid()
      reads this
    {
      Inv(Snapshot())
    }

    constructor ()
      ensures Snapshot() == Initial && Valid()
    {
      showSteps := false;
      activeStep := 1;
      bankName := "";
      bankId := "";
      agreementChecked := false;
      paymentCompleted := false;
    }

    /** `handleStartDownload`. */
    method HandleStartDownload()
      requires Valid() && Offered(Snapshot(), StartDownload)
      modifies this
      ensures Valid() && Snapshot() == Apply(old(Snapshot()), StartDownload)
    {
      ApplyKeepsInv(Snapshot(), StartDownload);
      showSteps := true;
    }

    /** `handleNextStep`, behind the Continue button. */
    method HandleNextStep()
      requires Valid() && Offered(Snapshot(), Continue)
      modifies this
      ensures Valid() && Snapshot() == Apply(old(Snapshot()), Continue)
    {
      ApplyKeepsInv(Snapshot(), Continue);
      if activeStep == 1 && (bankName == "" || bankId == "") {
        return;
      }
      if activeStep == 2 && !agreementChecked {
        return;
      }
      if activeStep == 3 && !paymentCompleted {
        paymentCompleted := true;
        return;
      }
      activeStep := activeStep + 1;
    }

    /** `handlePreviousStep`, behind the Back button. */
    method HandlePreviousStep()
      requires Valid() && Offered(Snapshot(), Back)
      modifies this
      ensures Valid() && Snapshot() == Apply(old(Snapshot()), Back)
    {
      ApplyKeepsInv(Snapshot(), Back);
      activeStep := activeStep - 1;
    }

    /** The bank name input of step 1. */
    method SetBankName(name: string)
      requires Valid() && Offered(Snapshot(), EditBankName(name))
      modifies this
      ensures Valid() && Snapshot() == Apply(old(Snapshot()), EditBankName(name))
    {
      ApplyKeepsInv(Snapshot(), EditBankName(name));
      bankName := name;
    }

    /** The bank ID input of step 1. */
    method SetBankId(id: string)
      requires Valid() && Offered(Snapshot(), EditBankId(id))
      modifies this
      ensures Valid() && Snapshot() == Apply(old(Snapshot()), EditBankId(id))
    {
      ApplyKeepsInv(Snapshot(), EditBankId(id));
      bankId := id;
    }

    /** The agreement checkbox of step 2. */
    method ToggleAgreementBox()
      requires Valid() && Offered(Snapshot(), ToggleAgreement)
      modifies this
      ensures Valid() && Snapshot() == Apply(old(Snapshot()), ToggleAgreement)
    {
      ApplyKeepsInv(Snapshot(), ToggleAgreement);
      agreementChecked := !agreementChecked;
    }

    /** The Process Payment button of step 3. */
    method ProcessPaymentButton()
      requires Valid() && Offered(Snapshot(), ProcessPayment)
      modifies this
      ensures Valid() && Snapshot() == Apply(old(Snapshot()), ProcessPayment)
    {
      ApplyKeepsInv(Snapshot(), ProcessPayment);
      paymentCompleted := true;
    }
  }
}
