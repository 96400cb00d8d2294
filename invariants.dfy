/** The consistency conditions the store keeps between its tables, stated on the table values,
    and the lemmas that each kind of write preserves them. */
module StoreInvariants {
  import opened Common
  import opened Cargos
  import opened Invoices
  import opened Payments

  predicate TrackingNumbersUnique(cargos: seq<Cargo>) {
    forall i, j :: 0 <= i < j < |cargos| ==> cargos[i].trackingNumber != cargos[j].trackingNumber
  }

  /** Every history row names an existing cargo. */
  predicate HistoryWellFormed(cargoCount: nat, history: seq<CargoHistory>) {
    forall i :: 0 <= i < |history| ==> IsId(history[i].cargo, cargoCount)
  }

  /** Every invoice names an existing cargo, and control numbers are unique. */
  predicate InvoicesWellFormed(cargoCount: nat, invoices: seq<Invoice>) {
    && (forall i :: 0 <= i < |invoices| ==> IsId(invoices[i].cargo, cargoCount))
    && (forall i, j :: 0 <= i < j < |invoices| ==> invoices[i].controlNumber != invoices[j].controlNumber)
  }

  /** Every payment names an existing invoice; a completed payment's invoice is paid; and no
      invoice has two completed payments. */
  predicate PaymentsSettle(invoices: seq<Invoice>, payments: seq<Payment>) {
    && (forall i :: 0 <= i < |payments| ==> IsId(payments[i].invoice, |invoices|))
    && (forall i {:trigger payments[i]} :: 0 <= i < |payments| && payments[i].status == Completed ==>
          invoices[payments[i].invoice - 1].status == Paid)
    && (forall i, j :: 0 <= i < j < |payments| && payments[i].status == Completed && payments[j].status == Completed ==>
          payments[i].invoice != payments[j].invoice)
  }

  /** Every ledger transaction records a successful settlement of its payment's amount under
      the payment's reference. */
  predicate TransactionsMirror(payments: seq<Payment>, transactions: seq<Transaction>) {
    forall i {:trigger transactions[i]} :: 0 <= i < |transactions| ==>
      && IsId(transactions[i].payment, |payments|)
      && transactions[i].amount == payments[transactions[i].payment - 1].amountPaid
      && transactions[i].reference == payments[transactions[i].payment - 1].reference
      && transactions[i].status == TxSuccess
  }

  /** Every release order rests on a completed payment of an invoice for its own cargo; no
      payment backs two release orders; release codes are unique. */
  predicate ReleaseOrdersBacked(invoices: seq<Invoice>, payments: seq<Payment>, orders: seq<ReleaseOrder>) {
    && (forall i {:trigger orders[i]} :: 0 <= i < |orders| ==>
          && IsId(orders[i].payment, |payments|)
          && payments[orders[i].payment - 1].status == Completed
          && IsId(payments[orders[i].payment - 1].invoice, |invoices|)
          && orders[i].cargo == invoices[payments[orders[i].payment - 1].invoice - 1].cargo)
    && (forall i, j :: 0 <= i < j < |orders| ==> orders[i].payment != orders[j].payment)
    && (forall i, j :: 0 <= i < j < |orders| ==> orders[i].releaseCode != orders[j].releaseCode)
  }

  /** A wallet entry links only to existing invoices and payments. */
  predicate LinksExist(e: WalletTransaction, invoiceCount: nat, paymentCount: nat) {
    && (e.invoice.Some? ==> IsId(e.invoice.value, invoiceCount))
    && (e.payment.Some? ==> IsId(e.payment.value, paymentCount))
  }

  predicate WalletLinksExist(w: Wallet, invoiceCount: nat, paymentCount: nat) {
    forall k :: 0 <= k < |w.transactions| ==> LinksExist(w.transactions[k], invoiceCount, paymentCount)
  }

  /** Every wallet keeps its ledger invariant against its opening balance; a customer has at
      most one wallet; wallet entries link to existing rows. */
  predicate WalletsConsistent(wallets: seq<Wallet>, openings: seq<int>, invoiceCount: nat, paymentCount: nat) {
    && |openings| == |wallets|
    && (forall i :: 0 <= i < |wallets| ==> LedgerConsistent(wallets[i], openings[i]))
    && (forall i, j :: 0 <= i < j < |wallets| ==> wallets[i].customer != wallets[j].customer)
    && (forall i :: 0 <= i < |wallets| ==> WalletLinksExist(wallets[i], invoiceCount, paymentCount))
  }

  /** The ledger property of the whole wallet table: every wallet's balance is its opening
      balance plus the signed fold of its log, and is never negative. */
  lemma WalletsReconcile(wallets: seq<Wallet>, openings: seq<int>, invoiceCount: nat, paymentCount: nat)
    requires WalletsConsistent(wallets, openings, invoiceCount, paymentCount)
    ensures forall i :: 0 <= i < |wallets| ==>
              wallets[i].balance == openings[i] + SignedSum(wallets[i].transactions) && wallets[i].balance >= 0
  {
    forall i | 0 <= i < |wallets|
      ensures wallets[i].balance == openings[i] + SignedSum(wallets[i].transactions) && wallets[i].balance >= 0
    {
      Reconciles(wallets[i], openings[i]);
    }
  }

  /** The invoice write of a settlement: invoice k becomes paid by method m. */
  function MarkPaid(invoices: seq<Invoice>, k: nat, m: string): (r: seq<Invoice>)
    requires IsId(k, |invoices|)
    ensures |r| == |invoices|
    ensures r[k - 1].status == Paid && r[k - 1].paymentMethod == Some(m)
    ensures forall i :: 0 <= i < |r| ==> r[i].cargo == invoices[i].cargo && r[i].controlNumber == invoices[i].controlNumber
    ensures forall i :: 0 <= i < |r| && i != k - 1 ==> r[i] == invoices[i]
  {
    invoices[k - 1 := invoices[k - 1].(status := Paid, paymentMethod := Some(m))]
  }

  /** Only status and payment method change, so cargo references and control numbers stay valid. */
  lemma MarkPaidKeepsInvoices(cargoCount: nat, invoices: seq<Invoice>, k: nat, m: string)
    requires InvoicesWellFormed(cargoCount, invoices) && IsId(k, |invoices|)
    ensures InvoicesWellFormed(cargoCount, MarkPaid(invoices, k, m))
  {
  }

  /** Recording a completed payment for an invoice that was not paid, while marking that
      invoice paid, keeps "completed implies paid" and "at most one completed payment". */
  lemma {:induction false} SettleKeepsPayments(invoices: seq<Invoice>, payments: seq<Payment>, k: nat, p: Payment, m: string)
    requires PaymentsSettle(invoices, payments)
    requires IsId(k, |invoices|) && invoices[k - 1].status != Paid
    requires p.invoice == k && p.status == Completed
    ensures PaymentsSettle(MarkPaid(invoices, k, m), payments + [p])
  {
    var invoices' := MarkPaid(invoices, k, m);
    var payments' := payments + [p];
    forall i | 0 <= i < |payments| && payments[i].status == Completed
      ensures payments[i].invoice != k
    {
      assert invoices[payments[i].invoice - 1].status == Paid;
    }
    forall i | 0 <= i < |payments'| && payments'[i].status == Completed
      ensures invoices'[payments'[i].invoice - 1].status == Paid
    {
      if i < |payments| {
        assert payments'[i] == payments[i];
      }
    }
  }

  /** A transaction mirroring the newly appended payment keeps the mirror invariant. */
  lemma {:induction false} SettleKeepsTransactions(payments: seq<Payment>, transactions: seq<Transaction>, p: Payment, t: Transaction)
    requires TransactionsMirror(payments, transactions)
    requires t.payment == |payments| + 1 && t.amount == p.amountPaid && t.reference == p.reference && t.status == TxSuccess
    ensures TransactionsMirror(payments + [p], transactions + [t])
  {
    var payments' := payments + [p];
    var transactions' := transactions + [t];
    forall i | 0 <= i < |transactions'|
      ensures IsId(transactions'[i].payment, |payments'|)
      ensures transactions'[i].amount == payments'[transactions'[i].payment - 1].amountPaid
      ensures transactions'[i].reference == payments'[transactions'[i].payment - 1].reference
      ensures transactions'[i].status == TxSuccess
    {
      if i < |transactions| {
        assert transactions'[i] == transactions[i];
        assert payments'[transactions[i].payment - 1] == payments[transactions[i].payment - 1];
      }
    }
  }

  /** A release order for the new completed payment, for the cargo of the invoice it pays,
      under a release code not yet used, keeps the release-order invariant. */
  lemma {:induction false} SettleKeepsReleaseOrders(invoices: seq<Invoice>, payments: seq<Payment>, orders: seq<ReleaseOrder>,
                                                    k: nat, p: Payment, o: ReleaseOrder, m: string)
    requires ReleaseOrdersBacked(invoices, payments, orders)
    requires IsId(k, |invoices|) && p.invoice == k && p.status == Completed
    requires o.payment == |payments| + 1 && o.cargo == invoices[k - 1].cargo
    requires forall i :: 0 <= i < |orders| ==> orders[i].releaseCode != o.releaseCode
    ensures ReleaseOrdersBacked(MarkPaid(invoices, k, m), payments + [p], orders + [o])
  {
    var invoices' := MarkPaid(invoices, k, m);
    var payments' := payments + [p];
    var orders' := orders + [o];
    forall i | 0 <= i < |orders'|
      ensures IsId(orders'[i].payment, |payments'|)
      ensures payments'[orders'[i].payment - 1].status == Completed
      ensures IsId(payments'[orders'[i].payment - 1].invoice, |invoices'|)
      ensures orders'[i].cargo == invoices'[payments'[orders'[i].payment - 1].invoice - 1].cargo
    {
      if i < |orders| {
        assert orders'[i] == orders[i];
        assert payments'[orders[i].payment - 1] == payments[orders[i].payment - 1];
      }
    }
    forall i, j | 0 <= i < j < |orders'|
      ensures orders'[i].payment != orders'[j].payment
      ensures orders'[i].releaseCode != orders'[j].releaseCode
    {
      if j < |orders| {
        assert orders'[i] == orders[i] && orders'[j] == orders[j];
      } else {
        assert orders'[i] == orders[i];
      }
    }
  }

  /** Growing the invoice and payment tables never breaks the wallet links. */
  lemma TablesGrowKeepWallets(wallets: seq<Wallet>, openings: seq<int>, ni: nat, np: nat, ni': nat, np': nat)
    requires WalletsConsistent(wallets, openings, ni, np)
    requires ni <= ni' && np <= np'
    ensures WalletsConsistent(wallets, openings, ni', np')
  {
    forall i, k | 0 <= i < |wallets| && 0 <= k < |wallets[i].transactions|
      ensures LinksExist(wallets[i].transactions[k], ni', np')
    {
      assert LinksExist(wallets[i].transactions[k], ni, np);
    }
  }

  /** Replacing one wallet by a consistent one of the same customer keeps the wallet table consistent. */
  lemma WalletReplaced(wallets: seq<Wallet>, openings: seq<int>, ni: nat, np: nat, i: nat, w: Wallet)
    requires WalletsConsistent(wallets, openings, ni, np)
    requires i < |wallets| && w.customer == wallets[i].customer
    requires LedgerConsistent(w, openings[i]) && WalletLinksExist(w, ni, np)
    ensures WalletsConsistent(wallets[i := w], openings, ni, np)
  {
  }

  /** Appending an entry that moves the balance by its signed amount to a non-negative balance
      keeps the ledger invariant. */
  lemma AppendKeepsLedger(w: Wallet, opening: int, e: WalletTransaction)
    requires LedgerConsistent(w, opening)
    requires e.balanceBefore == w.balance && e.balanceAfter == w.balance + Signed(e) && e.balanceAfter >= 0
    ensures LedgerConsistent(w.(balance := e.balanceAfter, transactions := w.transactions + [e]), opening)
  {
    ChainedExtend(w.transactions, opening, w.balance, e);
  }

  /** Relabelling entry i with a kind of the same sign keeps the ledger invariant. */
  lemma RelabelKeepsLedger(w: Wallet, opening: int, i: nat, e: WalletTransaction)
    requires LedgerConsistent(w, opening) && i < |w.transactions|
    requires e.balanceBefore == w.transactions[i].balanceBefore && e.balanceAfter == w.transactions[i].balanceAfter
    requires Signed(e) == Signed(w.transactions[i])
    ensures LedgerConsistent(w.(transactions := w.transactions[i := e]), opening)
  {
    RelabelKeepsChain(w.transactions, opening, w.balance, i, e);
  }

  /** A new pending invoice for an existing cargo under an unused control number keeps the
      invoice, payment and release-order invariants: existing rows keep their indices. */
  lemma {:induction false} InvoiceAddedKeepsInvariants(cargoCount: nat, invoices: seq<Invoice>, payments: seq<Payment>,
                                                       orders: seq<ReleaseOrder>, inv: Invoice)
    requires InvoicesWellFormed(cargoCount, invoices) && PaymentsSettle(invoices, payments)
    requires ReleaseOrdersBacked(invoices, payments, orders)
    requires IsId(inv.cargo, cargoCount)
    requires forall i :: 0 <= i < |invoices| ==> invoices[i].controlNumber != inv.controlNumber
    ensures InvoicesWellFormed(cargoCount, invoices + [inv])
    ensures PaymentsSettle(invoices + [inv], payments)
    ensures ReleaseOrdersBacked(invoices + [inv], payments, orders)
  {
    var invoices' := invoices + [inv];
    forall i | 0 <= i < |payments|
      ensures invoices'[payments[i].invoice - 1] == invoices[payments[i].invoice - 1]
    {
    }
    forall i | 0 <= i < |orders|
      ensures invoices'[payments[orders[i].payment - 1].invoice - 1] == invoices[payments[orders[i].payment - 1].invoice - 1]
    {
    }
  }

  /** A history row for an existing cargo keeps the history well formed. */
  lemma HistoryAppended(cargoCount: nat, history: seq<CargoHistory>, h: CargoHistory)
    requires HistoryWellFormed(cargoCount, history)
    requires IsId(h.cargo, cargoCount)
    ensures HistoryWellFormed(cargoCount, history + [h])
  {
  }

  /** Registering a cargo only adds a valid id, so rows that reference cargo stay valid. */
  lemma CargoCountGrows(n: nat, n': nat, history: seq<CargoHistory>, invoices: seq<Invoice>)
    requires n <= n'
    requires HistoryWellFormed(n, history) && InvoicesWellFormed(n, invoices)
    ensures HistoryWellFormed(n', history) && InvoicesWellFormed(n', invoices)
  {
  }

  /** Marking one release order used keeps its cargo, payment and code, hence the invariant. */
  lemma OrderUsedKeepsInvariant(invoices: seq<Invoice>, payments: seq<Payment>, orders: seq<ReleaseOrder>,
                                i: nat, usedAt: int)
    requires ReleaseOrdersBacked(invoices, payments, orders) && i < |orders|
    ensures ReleaseOrdersBacked(invoices, payments, orders[i := orders[i].(status := Used, usedAt := Some(usedAt))])
  {
  }
}
