/** The deposit/withdraw dialog of the customer dashboard: the amount check run
    before anything is sent, the dispatch to the deposit or withdrawal call,
    and the clearing of the error when the amount is edited. Amounts are
    integer cents; `parseFloat` of the typed text is an input (`parsed`). */
module TransactionModal {
  import opened Wrappers
  import Ledger

  /** The state the dialog keeps: the typed amount, the error shown, and
      whether a request is in flight. */
  datatype ModalState = ModalState(amount: string, error: string, processing: bool)

  /** What submitting the form leads to. */
  datatype Action = NoCall | CallDeposit(amount: int) | CallWithdrawal(amount: int)

  /** `validateTransaction`: the first failing check decides the message. */
  function ValidateTransaction(kind: Ledger.TxKind, amountText: string, parsed: Option<int>,
                               currentBalance: int): (r: Result<int, string>)
    ensures amountText == "" || parsed.None? ==> r == Failure("Please enter a valid amount")
    ensures amountText != "" && parsed.Some? && parsed.value <= 0 ==>
              r == Failure("Amount must be greater than zero")
    ensures (amountText != "" && parsed.Some? && parsed.value > 0 && kind == Ledger.Withdraw
             && parsed.value > currentBalance) ==> r == Failure("Insufficient funds")
    ensures r.Success? <==> amountText != "" && parsed.Some? && 0 < parsed.value
                            && (kind == Ledger.Withdraw ==> parsed.value <= currentBalance)
    ensures r.Success? ==> r.value == parsed.value
  {
    if amountText == "" || parsed.None? then
      Failure("Please enter a valid amount")
    else if parsed.value <= 0 then
      Failure("Amount must be greater than zero")
    else if kind == Ledger.Withdraw && parsed.value > currentBalance then
      Failure("Insufficient funds")
    else
      Success(parsed.value)
  }

  /** A deposit is never refused for its size. */
  lemma DepositHasNoUpperBound(amountText: string, amount: int, currentBalance: int)
    requires amountText != "" && amount > 0
    ensures ValidateTransaction(Ledger.Deposit, amountText, Some(amount), currentBalance) == Success(amount)
  {
  }

  /** `handleSubmit`: on a failed check the message is shown and no call is made;
      otherwise the dialog is marked busy and the call matching its type is made. */
  function Submit(s: ModalState, kind: Ledger.TxKind, parsed: Option<int>, currentBalance: int): (r: (ModalState, Action))
    ensures r.1.NoCall? <==> ValidateTransaction(kind, s.amount, parsed, currentBalance).Failure?
    ensures r.1.NoCall? ==> r.0 == s.(error := ValidateTransaction(kind, s.amount, parsed, currentBalance).error)
    ensures r.1.CallDeposit? ==> kind == Ledger.Deposit && r.1.amount == parsed.value && r.1.amount > 0
    ensures r.1.CallWithdrawal? ==> kind == Ledger.Withdraw && r.1.amount == parsed.value
                                    && 0 < r.1.amount <= currentBalance
    ensures !r.1.NoCall? ==> r.0 == s.(processing := true)
  {
    match ValidateTransaction(kind, s.amount, parsed, currentBalance)
    case Failure(message) => (s.(error := message), NoCall)
    case Success(amount) =>
      var call := if kind == Ledger.Deposit then CallDeposit(amount) else CallWithdrawal(amount);
      (s.(processing := true), call)
  }

  /** `handleAmountChange`: the new text replaces the old and the error is cleared. */
  function ChangeAmount(s: ModalState, text: string): (r: ModalState)
    ensures r.amount == text && r.error == "" && r.processing == s.processing
  {
    s.(amount := text, error := "")
  }

  /** After an edit, no message from an earlier submission is left on screen,
      and the next submission is judged on the new text alone. */
  lemma EditClearsStaleError(s: ModalState, kind: Ledger.TxKind, earlier: Option<int>, text: string,
                             parsed: Option<int>, currentBalance: int)
    ensures ChangeAmount(Submit(s, kind, earlier, currentBalance).0, text).error == ""
    ensures Submit(ChangeAmount(Submit(s, kind, earlier, currentBalance).0, text), kind, parsed, currentBalance).1
            == Submit(ChangeAmount(s, text), kind, parsed, currentBalance).1
  {
  }
}
