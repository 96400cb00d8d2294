/** Payments, ledger transactions, release orders, and the customer wallet with its
    transaction log; the signed fold of the log and the balance chain it must form. */
module Payments {
  import opened Common

  /** Payment methods the payment model declares (the field itself accepts any string). */
  const MobileMoney: string := "mobile_money"
  const Bank: string := "bank"
  const Cash: string := "cash"
  const WalletMethod: string := "wallet"

  const Usd: string := "USD"

  datatype PaymentStatus = PaymentPending | Completed | PaymentFailed

  /** A settlement of one invoice. */
  datatype Payment = Payment(
    invoice: nat,
    amountPaid: int,
    reference: string,
    paymentMethod: string,
    status: PaymentStatus,
    processedBy: Option<nat>,
    processedAt: Option<int>)

  datatype TransactionType = CargoPayment | StorageFee | RefundCharge | Penalty

  datatype TransactionStatus = TxSuccess | TxFailed

  /** The payment ledger record written beside a Payment. */
  datatype Transaction = Transaction(
    payment: nat,
    kind: TransactionType,
    amount: int,
    currency: string,
    status: TransactionStatus,
    reference: string,
    createdBy: Option<nat>)

  datatype ReleaseStatus = Active | Used | Expired

  /** A single-use authorisation to hand a cargo over. */
  datatype ReleaseOrder = ReleaseOrder(
    cargo: nat,
    payment: nat,
    releaseCode: string,
    status: ReleaseStatus,
    generatedBy: Option<nat>,
    generatedAt: int,
    usedAt: Option<int>)

  datatype WalletTxType = DepositTx | WithdrawalTx | PaymentTx | RefundTx | AutoPaymentTx

  datatype EntryStatus = EntrySuccess | EntryFailed | EntryPending

  /** One entry of a wallet's log, with the balance before and after it. */
  datatype WalletTransaction = WalletTransaction(
    kind: WalletTxType,
    amount: int,
    balanceBefore: int,
    balanceAfter: int,
    reference: string,
    description: string,
    invoice: Option<nat>,
    payment: Option<nat>,
    status: EntryStatus)

  /** A customer's prefunded wallet; `transactions` is its log, oldest first. */
  datatype Wallet = Wallet(
    customer: nat,
    balance: int,
    currency: string,
    isActive: bool,
    autoPaymentEnabled: bool,
    transactions: seq<WalletTransaction>)

  /** Wallet.has_sufficient_balance. */
  predicate HasSufficientBalance(w: Wallet, amount: int) {
    w.balance >= amount
  }

  /** Deposits and refunds add to the balance; withdrawals, payments and auto-payments take from it. */
  function Signed(e: WalletTransaction): (d: int)
    ensures e.kind in {DepositTx, RefundTx} ==> d == e.amount
    ensures e.kind !in {DepositTx, RefundTx} ==> d == -e.amount
  {
    if e.kind == DepositTx || e.kind == RefundTx then e.amount else -e.amount
  }

  /** The signed fold of a log. */
  function SignedSum(log: seq<WalletTransaction>): (sum: int) {
    if log == [] then 0 else SignedSum(log[..|log| - 1]) + Signed(log[|log| - 1])
  }

  /** The log's balance_before / balance_after pairs run without a gap from `opening` to
      `closing`, and every entry moves the balance by exactly its signed amount. */
  predicate Chained(log: seq<WalletTransaction>, opening: int, closing: int)
    decreases |log|
  {
    if log == [] then opening == closing
    else
      var last := log[|log| - 1];
      && last.balanceAfter == closing
      && last.balanceAfter - last.balanceBefore == Signed(last)
      && Chained(log[..|log| - 1], opening, last.balanceBefore)
  }

  /** No balance recorded in the log is negative. */
  predicate NeverNegative(log: seq<WalletTransaction>) {
    forall i :: 0 <= i < |log| ==> log[i].balanceBefore >= 0 && log[i].balanceAfter >= 0
  }

  /** The wallet's ledger invariant relative to the balance it was opened with. */
  predicate LedgerConsistent(w: Wallet, opening: int) {
    && 0 <= opening
    && 0 <= w.balance
    && Chained(w.transactions, opening, w.balance)
    && NeverNegative(w.transactions)
  }

  /** Reconciliation: a chained log's closing balance is its opening balance plus its signed fold. */
  lemma {:induction false} ChainedBalance(log: seq<WalletTransaction>, opening: int, closing: int)
    requires Chained(log, opening, closing)
    ensures closing == opening + SignedSum(log)
    decreases |log|
  {
    if log != [] {
      ChainedBalance(log[..|log| - 1], opening, log[|log| - 1].balanceBefore);
    }
  }

  /** A consistent wallet's balance is its opening balance plus the signed fold of its log. */
  lemma Reconciles(w: Wallet, opening: int)
    requires LedgerConsistent(w, opening)
    ensures w.balance == opening + SignedSum(w.transactions)
    ensures w.balance >= 0
  {
    ChainedBalance(w.transactions, opening, w.balance);
  }

  /** Appending an entry that starts at the current closing balance keeps the chain. */
  lemma ChainedExtend(log: seq<WalletTransaction>, opening: int, closing: int, e: WalletTransaction)
    requires Chained(log, opening, closing)
    requires e.balanceBefore == closing && e.balanceAfter - e.balanceBefore == Signed(e)
    ensures Chained(log + [e], opening, e.balanceAfter)
  {
    assert (log + [e])[..|log|] == log;
  }

  /** The balance check guards exactly what the ledger invariant needs: a consistent wallet
      passes has_sufficient_balance for a debit if and only if recording that debit, as an entry
      from the current balance to the balance less the amount, leaves the wallet consistent. */
  lemma SufficientBalanceKeepsLedger(w: Wallet, opening: int, e: WalletTransaction)
    requires LedgerConsistent(w, opening)
    requires e.kind !in {DepositTx, RefundTx}
    requires e.balanceBefore == w.balance && e.balanceAfter == w.balance - e.amount
    ensures HasSufficientBalance(w, e.amount) <==>
              LedgerConsistent(w.(balance := e.balanceAfter, transactions := w.transactions + [e]), opening)
  {
  }

  /** Rewriting one entry without changing its balances or the sign of its amount keeps the
      chain; the auto-payment relabelling payment -> auto_payment is such a rewrite. */
  lemma {:induction false} RelabelKeepsChain(log: seq<WalletTransaction>, opening: int, closing: int,
                                             i: nat, e: WalletTransaction)
    requires Chained(log, opening, closing)
    requires i < |log|
    requires e.balanceBefore == log[i].balanceBefore && e.balanceAfter == log[i].balanceAfter
    requires Signed(e) == Signed(log[i])
    ensures Chained(log[i := e], opening, closing)
    decreases |log|
  {
    var n := |log| - 1;
    var log' := log[i := e];
    assert log'[..n] == if i == n then log[..n] else log[..n][i := e];
    if i < n {
      RelabelKeepsChain(log[..n], opening, log[n].balanceBefore, i, e);
    }
  }

  /** Is this entry a payment-type entry for the given invoice? */
  predicate PaysInvoice(e: WalletTransaction, invoice: nat) {
    e.invoice == Some(invoice) && e.kind == PaymentTx
  }

  /** wallet.transactions.filter(invoice=..., transaction_type='payment').order_by('-created_at').first():
      the position of the newest payment-type entry for the invoice, if any. */
  function LatestPaymentEntry(log: seq<WalletTransaction>, invoice: nat): (r: Option<nat>)
    ensures r.Some? ==> r.value < |log| && PaysInvoice(log[r.value], invoice)
    ensures r.Some? ==> forall j :: r.value < j < |log| ==> !PaysInvoice(log[j], invoice)
    ensures r.None? ==> forall j :: 0 <= j < |log| ==> !PaysInvoice(log[j], invoice)
  {
    if log == [] then None
    else if PaysInvoice(log[|log| - 1], invoice) then Some(|log| - 1)
    else LatestPaymentEntry(log[..|log| - 1], invoice)
  }
}
