/** The five-step escrow payment wizard. The component's state is a
    `Wizard` value; `NextStep` is the Continue button's handler and
    `CompleteProcessing` the simulated payment processor's timer callback.
    `Press` adds what the rendered page allows (which controls exist on
    which step, and the disabled button), so that `Run` follows a session of
    user events; the `EscrowWizard` class holds the same state in fields
    whose methods are tied to these functions. */
module EscrowPaymentUI {
  import opened Wrappers

  /** The `PaymentStep` enum. */
  const MethodSelection: int := 0
  const EscrowTerms: int := 1
  const PaymentDetails: int := 2
  const Confirmation: int := 3
  const Completion: int := 4

  const MethodMissing := "Please select a payment method"
  const TermsMissing := "You must agree to the escrow terms"

  datatype Wizard = Wizard(
    step: int,
    selectedMethod: Option<string>,
    agreedToTerms: bool,
    processing: bool,
    paymentError: Option<string>,
    transactionId: Option<string>)

  const Initial := Wizard(MethodSelection, None, false, false, None, None)

  /** `!selectedMethod` is false: a method is chosen and its id is not the
      empty string. */
  predicate HasMethod(w: Wizard) {
    w.selectedMethod.Some? && w.selectedMethod.value != ""
  }

  /** What `handleNextStep` produces: the new state, whether it started the
      payment timer, and whether it called `onPaymentComplete`. */
  datatype StepResult = StepResult(next: Wizard, startsTimer: bool, notifies: bool)

  /** `handleNextStep`. Without a method the wizard stays on method
      selection, and without agreement on the terms step, each with its
      error; otherwise the error is cleared and the step advances by
      exactly one. Leaving payment details starts processing and its timer;
      pressing on the completion step would notify the parent. */
  function NextStep(w: Wizard): (r: StepResult)
    ensures w.step == MethodSelection && !HasMethod(w) ==>
      r == StepResult(w.(paymentError := Some(MethodMissing)), false, false)
    ensures w.step == EscrowTerms && !w.agreedToTerms ==>
      r == StepResult(w.(paymentError := Some(TermsMissing)), false, false)
    ensures (w.step == MethodSelection ==> HasMethod(w)) && (w.step == EscrowTerms ==> w.agreedToTerms) ==>
      && r.next.step == w.step + 1
      && r.next.paymentError.None?
      && r.next.selectedMethod == w.selectedMethod && r.next.agreedToTerms == w.agreedToTerms
      && r.next.transactionId == w.transactionId
      && (r.startsTimer <==> w.step == PaymentDetails)
      && r.next.processing == (w.processing || r.startsTimer)
      && (r.notifies <==> w.step == Completion)
  {
    if w.step == MethodSelection && !HasMethod(w) then
      StepResult(w.(paymentError := Some(MethodMissing)), false, false)
    else if w.step == EscrowTerms && !w.agreedToTerms then
      StepResult(w.(paymentError := Some(TermsMissing)), false, false)
    else
      var advanced := w.(paymentError := None, step := w.step + 1);
      var starts := w.step == PaymentDetails;
      StepResult(if starts then advanced.(processing := true) else advanced, starts, w.step == Completion)
  }

  /** The processing timer fires: processing stops, the transaction id
      "TX-" followed by the random suffix is recorded, and the wizard jumps
      to completion. */
  function CompleteProcessing(w: Wizard, suffix: string): (r: Wizard)
    ensures r.step == Completion && !r.processing && r.transactionId == Some("TX-" + suffix)
    ensures r.selectedMethod == w.selectedMethod && r.agreedToTerms == w.agreedToTerms
    ensures r.paymentError == w.paymentError
  {
    w.(processing := false, transactionId := Some("TX-" + suffix), step := Completion)
  }

  /** The Continue button is rendered before the completion step and is
      disabled while processing. */
  predicate ContinueEnabled(w: Wizard) {
    w.step < Completion && !w.processing
  }

  /** The component together with the timers it has scheduled and not yet
      run. */
  datatype Ui = Ui(wizard: Wizard, pendingTimers: nat)

  datatype Event =
    | ChooseMethod(methodId: string)   // a click on a method card, shown on method selection
    | CheckTerms(checked: bool)        // the terms checkbox, shown on the terms step
    | Continue                         // the Continue / Confirm Payment button
    | TimerFires(suffix: string)       // a scheduled processing timer runs

  /** One user event on the rendered page: an event on a control that the
      current step does not render, a press of a disabled button, or a timer
      that was never scheduled changes nothing. The flag says whether
      `onPaymentComplete` was called, and it never is: only Continue on the
      completion step notifies, and the button is not rendered there. */
  function Press(u: Ui, e: Event): (r: (Ui, bool))
    ensures !r.1
  {
    var w := u.wizard;
    match e
    case ChooseMethod(id) =>
      if w.step == MethodSelection then (u.(wizard := w.(selectedMethod := Some(id))), false) else (u, false)
    case CheckTerms(b) =>
      if w.step == EscrowTerms then (u.(wizard := w.(agreedToTerms := b)), false) else (u, false)
    case Continue =>
      if ContinueEnabled(w) then
        var s := NextStep(w);
        (Ui(s.next, u.pendingTimers + (if s.startsTimer then 1 else 0)), s.notifies)
      else (u, false)
    case TimerFires(suffix) =>
      if u.pendingTimers > 0 then (Ui(CompleteProcessing(w, suffix), u.pendingTimers - 1), false) else (u, false)
  }

  /** The final state after a session and how often it notified the
      parent. */
  function Run(u: Ui, events: seq<Event>): (Ui, nat)
    decreases |events|
  {
    if |events| == 0 then (u, 0)
    else
      var (next, notified) := Press(u, events[0]);
      var (last, count) := Run(next, events[1..]);
      (last, count + (if notified then 1 else 0))
  }

  /** What holds in every state a session can reach: the step is one of the
      five; processing, a pending timer and the confirmation step go
      together; a method has been chosen past the first step and the terms
      accepted past the second; and the completion step has a transaction
      id. */
  predicate Reachable(u: Ui) {
    var w := u.wizard;
    && MethodSelection <= w.step <= Completion
    && (w.processing <==> w.step == Confirmation)
    && u.pendingTimers == (if w.processing then 1 else 0)
    && (w.step > MethodSelection ==> HasMethod(w))
    && (w.step > EscrowTerms ==> w.agreedToTerms)
    && (w.step == Completion ==> w.transactionId.Some?)
  }

  lemma InitialReachable()
    ensures Reachable(Ui(Initial, 0))
  {
  }

  /** Every event keeps a reachable state reachable, and none of them
      notifies the parent: the only notifying press is Continue on the
      completion step, where the button is not rendered. */
  lemma PressPreservesReachable(u: Ui, e: Event)
    requires Reachable(u)
    ensures Reachable(Press(u, e).0)
    ensures !Press(u, e).1
  {
    match e
    case Continue =>
      if ContinueEnabled(u.wizard) {
        var s := NextStep(u.wizard);
        assert u.wizard.step < Confirmation;
      }
    case _ =>
  }

  /** No session from the initial state ever calls `onPaymentComplete`:
      the parent's completion handler is dead code as written. */
  lemma {:induction false} RunNeverNotifies(u: Ui, events: seq<Event>)
    requires Reachable(u)
    ensures Reachable(Run(u, events).0)
    ensures Run(u, events).1 == 0
    decreases |events|
  {
    if |events| > 0 {
      PressPreservesReachable(u, events[0]);
      RunNeverNotifies(Press(u, events[0]).0, events[1..]);
    }
  }

  /** The happy path: choose a method, accept the terms, continue through
      payment details and let the processor finish. */
  lemma HappyPathCompletes(methodId: string, suffix: string)
    requires methodId != ""
    ensures var (u, notified) := Run(Ui(Initial, 0),
      [ChooseMethod(methodId), Continue, CheckTerms(true), Continue, Continue, TimerFires(suffix)]);
      && u.wizard.step == Completion
      && u.wizard.transactionId == Some("TX-" + suffix)
      && u.wizard.selectedMethod == Some(methodId)
      && !u.wizard.processing && u.pendingTimers == 0
      && notified == 0
  {
    var e5 := [TimerFires(suffix)];
    var e4 := [Continue] + e5;
    var e3 := [Continue] + e4;
    var e2 := [CheckTerms(true)] + e3;
    var e1 := [Continue] + e2;
    var e0 := [ChooseMethod(methodId)] + e1;
    var u0 := Ui(Initial, 0);
    var u1 := Press(u0, ChooseMethod(methodId)).0;
    var u2 := Press(u1, Continue).0;
    assert u2.wizard.step == EscrowTerms;
    var u3 := Press(u2, CheckTerms(true)).0;
    var u4 := Press(u3, Continue).0;
    assert u4.wizard.step == PaymentDetails && !u4.wizard.processing;
    var u5 := Press(u4, Continue).0;
    assert u5.wizard.step == Confirmation && u5.pendingTimers == 1;
    var u6 := Press(u5, TimerFires(suffix)).0;
    assert e5[1..] == [];
    assert Run(u5, e5) == (u6, 0);
    assert e4[1..] == e5;
    assert Run(u4, e4) == (u6, 0);
    assert e3[1..] == e4;
    assert Run(u3, e3) == (u6, 0);
    assert e2[1..] == e3;
    assert Run(u2, e2) == (u6, 0);
    assert e1[1..] == e2;
    assert Run(u1, e1) == (u6, 0);
    assert e0[1..] == e1;
    assert Run(u0, e0) == (u6, 0);
    assert e0 == [ChooseMethod(methodId), Continue, CheckTerms(true), Continue, Continue, TimerFires(suffix)];
  }

  /** Pressing Continue on the method step without a method never moves
      the wizard, however often it is pressed. */
  lemma {:induction false} NoMethodNoProgress(u: Ui, n: nat)
    requires u.wizard.step == MethodSelection && !HasMethod(u.wizard) && !u.wizard.processing
    ensures var (v, _) := Run(u, seq(n, _ => Continue));
      v.wizard.step == MethodSelection && v.wizard.paymentError == (if n == 0 then u.wizard.paymentError else Some(MethodMissing))
    decreases n
  {
    if n > 0 {
      var next := Press(u, Continue).0;
      assert seq(n, _ => Continue)[1..] == seq(n - 1, _ => Continue);
      NoMethodNoProgress(next, n - 1);
    }
  }

  /** The wizard's state in fields, as the component's `useState` hooks
      hold it, plus the scheduled processing timers. */
  class EscrowWizard {
    var currentStep: int
    var selectedMethod: Option<string>
    var isAgreedToTerms: bool
    var isProcessing: bool
    var paymentError: Option<string>
    var transactionId: Option<string>
    var pendingTimers: nat

    ghost function State(): Wizard
      reads this
    {
      Wizard(currentStep, selectedMethod, isAgreedToTerms, isProcessing, paymentError, transactionId)
    }

    constructor ()
      ensures State() == Initial && pendingTimers == 0
    {
      currentStep := MethodSelection;
      selectedMethod := None;
      isAgreedToTerms := false;
      isProcessing := false;
      paymentError := None;
      transactionId := None;
      pendingTimers := 0;
    }

    /** `handleMethodSelect`. */
    method HandleMethodSelect(methodId: string)
      modifies this
      ensures State() == old(State()).(selectedMethod := Some(methodId))
      ensures pendingTimers == old(pendingTimers)
    {
      selectedMethod := Some(methodId);
    }

    /** The terms checkbox's `onChange`. */
    method SetAgreedToTerms(checked: bool)
      modifies this
      ensures State() == old(State()).(agreedToTerms := checked)
      ensures pendingTimers == old(pendingTimers)
    {
      isAgreedToTerms := checked;
    }

    /** `handleNextStep`, assigning the fields in the handler's order. */
    method HandleNextStep() returns (notifies: bool)
      modifies this
      ensures State() == NextStep(old(State())).next
      ensures notifies == NextStep(old(State())).notifies
      ensures pendingTimers == old(pendingTimers) + (if NextStep(old(State())).startsTimer then 1 else 0)
    {
      notifies := false;
      if currentStep == MethodSelection && !(selectedMethod.Some? && selectedMethod.value != "") {
        paymentError := Some(MethodMissing);
        return;
      }
      if currentStep == EscrowTerms && !isAgreedToTerms {
        paymentError := Some(TermsMissing);
        return;
      }
      var previous := currentStep;
      paymentError := None;
      currentStep := previous + 1;
      if previous == PaymentDetails {
        isProcessing := true;
        pendingTimers := pendingTimers + 1;
      }
      if previous == Completion {
        notifies := true;
      }
    }

    /** The processing timer's callback. */
    method FireTimer(suffix: string)
      requires pendingTimers > 0
      modifies this
      ensures State() == CompleteProcessing(old(State()), suffix)
      ensures pendingTimers == old(pendingTimers) - 1
    {
      pendingTimers := pendingTimers - 1;
      isProcessing := false;
      transactionId := Some("TX-" + suffix);
      currentStep := Completion;
    }

    /** Whether the Continue button can be pressed; a press it allows never
        reaches `onPaymentComplete`. */
    method CanContinue() returns (enabled: bool)
      ensures enabled == ContinueEnabled(State())
      ensures enabled ==> !NextStep(State()).notifies
    {
      enabled := currentStep < Completion && !isProcessing;
    }
  }
}
