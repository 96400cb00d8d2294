/** The freight store: every table of the money-and-status workflow, and one method per
    request or model operation that changes them. Each method is one sequential, atomic step. */
module Freight {
  import opened Common
  import opened Text
  import opened Codes
  import opened Cargos
  import opened Invoices
  import opened Payments
  import opened StoreInvariants

  /** The caller-supplied clock: an instant for timestamps, a day number for dates, and the
      calendar date the code formats print. */
  datatype Now = Now(instant: int, today: int, date: CivilDate)

  /** An HTTP error answer: 400 or 404 with the handler's message. */
  datatype ApiError = BadRequest(message: string) | NotFound(message: string) | Invalid

  /** The validated fields of a cargo registration request. */
  datatype CargoInput = CargoInput(
    customer: nat,
    warehouse: nat,
    name: string,
    origin: string,
    destination: string,
    weight: int,
    value: int,
    cbm: Option<real>,
    width: Option<real>,
    height: Option<real>,
    length: Option<real>,
    status: Option<string>)

  /** What an auto-payment attempt reports: a refusal with its reason, a failure raised by the
      wallet, or the settlement it made. */
  datatype AutoPayOutcome =
    | NoWallet
    | AutoPayDisabled
    | AlreadyPaid
    | InsufficientBalance(required: int, available: int, shortfall: int)
    | AutoPayFailed(reason: string)
    | AutoPaid(paymentId: nat, releaseOrderId: nat, releaseCode: string, balanceBefore: int, balanceAfter: int)

  datatype Settlement = Settlement(paymentId: nat, releaseOrderId: nat)

  datatype TrackingView = TrackingView(cargo: Cargo, timeline: seq<TimelineEntry>, currentLocation: string)

  /** customer.wallet: the index of the customer's wallet, if it has one. */
  function FindWallet(wallets: seq<Wallet>, customer: nat): (r: Option<nat>)
    ensures r.Some? ==> r.value < |wallets| && wallets[r.value].customer == customer
    ensures r.None? ==> forall i :: 0 <= i < |wallets| ==> wallets[i].customer != customer
  {
    LastWhere(wallets, (w: Wallet) => w.customer == customer)
  }

  function WalletOf(wallets: seq<Wallet>, customer: nat): (w: Option<Wallet>) {
    var i := FindWallet(wallets, customer);
    if i.Some? then Some(wallets[i.value]) else None
  }

  /** Cargo.objects.get(tracking_number=...): the index of the cargo with that tracking number. */
  function FindTracking(cargos: seq<Cargo>, trackingNumber: string): (r: Option<nat>)
    ensures r.Some? ==> r.value < |cargos| && cargos[r.value].trackingNumber == trackingNumber
    ensures r.None? ==> forall i :: 0 <= i < |cargos| ==> cargos[i].trackingNumber != trackingNumber
  {
    LastWhere(cargos, (c: Cargo) => c.trackingNumber == trackingNumber)
  }

  /** `description or default`. */
  function DescriptionOr(description: Option<string>, default: string): (d: string) {
    if Present(description) then description.value else default
  }

  /** Does the wallet settle the invoice automatically? */
  predicate AutoPayable(w: Option<Wallet>, inv: Invoice) {
    && w.Some?
    && w.value.autoPaymentEnabled && w.value.isActive
    && inv.status != Paid
    && HasSufficientBalance(w.value, inv.amount)
    && inv.amount > 0
  }

  /** The guard chain of the auto-payment: the first guard that fails names the refusal;
      None means every guard passed. */
  function Screen(w: Option<Wallet>, inv: Invoice): (r: Option<AutoPayOutcome>)
    ensures r.None? <==> AutoPayable(w, inv)
    ensures r == Some(NoWallet) <==> w.None?
    ensures r == Some(AutoPayDisabled) <==> w.Some? && !(w.value.autoPaymentEnabled && w.value.isActive)
    ensures r == Some(AlreadyPaid) <==> w.Some? && w.value.autoPaymentEnabled && w.value.isActive && inv.status == Paid
    ensures (r.Some? && r.value.InsufficientBalance?) <==>
              w.Some? && w.value.autoPaymentEnabled && w.value.isActive && inv.status != Paid && w.value.balance < inv.amount
    ensures r.Some? && r.value.InsufficientBalance? ==>
              r.value.required == inv.amount && r.value.available == w.value.balance &&
              r.value.shortfall == inv.amount - w.value.balance > 0
    ensures (r.Some? && r.value.AutoPayFailed?) <==>
              w.Some? && w.value.autoPaymentEnabled && w.value.isActive && inv.status != Paid &&
              w.value.balance >= inv.amount && inv.amount <= 0
    ensures r.Some? ==> !r.value.AutoPaid?
  {
    if w.None? then Some(NoWallet)
    else if !w.value.autoPaymentEnabled || !w.value.isActive then Some(AutoPayDisabled)
    else if inv.status == Paid then Some(AlreadyPaid)
    else if !HasSufficientBalance(w.value, inv.amount) then
      Some(InsufficientBalance(inv.amount, w.value.balance, inv.amount - w.value.balance))
    else if inv.amount <= 0 then Some(AutoPayFailed("Payment amount must be positive"))
    else None
  }

  /** The invoice raised on arrival of cargo c (id cargoId), before any auto-payment. */
  function ArrivalInvoice(cargoId: nat, c: Cargo, controlNumber: string, now: Now, actor: nat): (inv: Invoice)
    ensures inv.status == Pending && inv.cargo == cargoId
    ensures inv.amount == ArrivalAmount(c.value) && inv.dueDate == now.today + 7
  {
    Invoice(cargoId, controlNumber, ArrivalAmount(c.value), Usd, now.today + PaymentTermDays, Invoices.DefaultStatus, None, Some(actor))
  }

  /** The state after an auto-payment of invoice k from wallet index wi, in terms of the state before. */
  ghost predicate WalletSettled(
    wallets: seq<Wallet>, invoices: seq<Invoice>, payments: seq<Payment>, transactions: seq<Transaction>,
    releaseOrders: seq<ReleaseOrder>,
    wallets': seq<Wallet>, invoices': seq<Invoice>, payments': seq<Payment>, transactions': seq<Transaction>,
    releaseOrders': seq<ReleaseOrder>,
    k: nat, wi: nat, actor: Option<nat>, now: Now, refUuid: string, releaseUuid: string, outcome: AutoPayOutcome)
    requires IsId(k, |invoices|) && wi < |wallets|
    requires IsCivil(now.date) && IsUuidHex(refUuid) && IsUuidHex(releaseUuid)
  {
    var inv := invoices[k - 1];
    var w := wallets[wi];
    var paymentId := |payments| + 1;
    var reference := AutoPaymentReference(refUuid);
    var code := ReleaseCode(now.date, releaseUuid);
    var e := WalletTransaction(AutoPaymentTx, inv.amount, w.balance, w.balance - inv.amount,
                               "INV-" + inv.controlNumber, "Auto-payment for invoice " + inv.controlNumber,
                               Some(k), Some(paymentId), EntrySuccess);
    && outcome == AutoPaid(paymentId, |releaseOrders| + 1, code, w.balance, w.balance - inv.amount)
    && wallets' == wallets[wi := w.(balance := w.balance - inv.amount, transactions := w.transactions + [e])]
    && invoices' == invoices[k - 1 := inv.(status := Paid, paymentMethod := Some(WalletMethod))]
    && payments' == payments + [Payment(k, inv.amount, reference, WalletMethod, Completed, actor, Some(now.instant))]
    && transactions' == transactions + [Transaction(paymentId, CargoPayment, inv.amount, Usd, TxSuccess, reference, actor)]
    && releaseOrders' == releaseOrders + [ReleaseOrder(inv.cargo, paymentId, code, Active, actor, now.instant, None)]
  }

  /** What public_tracking answers for a tracking number over the cargo and history tables:
      not found, or the cargo with that number, the timeline of its history rows and its
      current location. */
  function TrackingResult(cargos: seq<Cargo>, history: seq<CargoHistory>, trackingNumber: string)
    : (r: Result<TrackingView, ApiError>)
    ensures FindTracking(cargos, trackingNumber).None? <==> r == Err(NotFound("Cargo not found"))
    ensures r.Ok? ==> r.value.cargo in cargos && r.value.cargo.trackingNumber == trackingNumber
    ensures r.Ok? ==> TimelineSorted(r.value.timeline) && r.value.currentLocation == CurrentLocation(r.value.cargo)
  {
    var found := FindTracking(cargos, trackingNumber);
    if found.None? then Err(NotFound("Cargo not found"))
    else
      var c := cargos[found.value];
      Ok(TrackingView(c, Timeline(history, found.value + 1), CurrentLocation(c)))
  }

  /** The body of public_tracking over the tables: the lookup, then the timeline loop. */
  method Track(cargos: seq<Cargo>, history: seq<CargoHistory>, trackingNumber: string)
    returns (r: Result<TrackingView, ApiError>)
    ensures r == TrackingResult(cargos, history, trackingNumber)
  {
    var found := FindTracking(cargos, trackingNumber);
    if found.None? {
      return Err(NotFound("Cargo not found"));
    }
    var i := found.value;
    var timeline := CollectTimeline(history, i + 1);
    r := Ok(TrackingView(cargos[i], timeline, CurrentLocation(cargos[i])));
  }

  /** Appending an entry and then relabelling it is appending the relabelled entry. */
  lemma RelabelLast(w: Wallet, w1: Wallet, w2: Wallet, e: WalletTransaction)
    requires |w1.transactions| == |w.transactions| + 1 && w1.transactions[..|w.transactions|] == w.transactions
    requires w2 == w1.(transactions := w1.transactions[|w.transactions| := e])
    ensures w2 == w1.(transactions := w.transactions + [e])
  {
    assert w2.transactions == w.transactions + [e];
  }

  class Store {
    var cargos: seq<Cargo>
    var history: seq<CargoHistory>
    var invoices: seq<Invoice>
    var payments: seq<Payment>
    var transactions: seq<Transaction>
    var releaseOrders: seq<ReleaseOrder>
    var wallets: seq<Wallet>
    /** The balance each wallet was opened with, the base of its ledger. */
    ghost var openings: seq<int>

    ghost predicate Valid()
      reads this
    {
      && TrackingNumbersUnique(cargos)
      && HistoryWellFormed(|cargos|, history)
      && InvoicesWellFormed(|cargos|, invoices)
      && PaymentsSettle(invoices, payments)
      && TransactionsMirror(payments, transactions)
      && ReleaseOrdersBacked(invoices, payments, releaseOrders)
      && WalletsConsistent(wallets, openings, |invoices|, |payments|)
    }

    predicate FreshTrackingNumber(tn: string)
      reads this
    {
      forall i :: 0 <= i < |cargos| ==> cargos[i].trackingNumber != tn
    }

    predicate FreshControlNumber(cn: string)
      reads this
    {
      forall i :: 0 <= i < |invoices| ==> invoices[i].controlNumber != cn
    }

    predicate FreshReleaseCode(code: string)
      reads this
    {
      forall i :: 0 <= i < |releaseOrders| ==> releaseOrders[i].releaseCode != code
    }

    /** The wallet of the customer who owns the cargo of invoice k. */
    function InvoiceWallet(k: nat): (w: Option<Wallet>)
      reads this
      requires IsId(k, |invoices|) && InvoicesWellFormed(|cargos|, invoices)
    {
      WalletOf(wallets, cargos[invoices[k - 1].cargo - 1].customer)
    }

    constructor ()
      ensures Valid()
      ensures cargos == [] && history == [] && invoices == [] && payments == []
      ensures transactions == [] && releaseOrders == [] && wallets == [] && openings == []
    {
      cargos, history, invoices, payments := [], [], [], [];
      transactions, releaseOrders, wallets := [], [], [];
      openings := [];
    }

    /** The ledger property of the store: every wallet's balance is the balance it was opened
        with plus the signed fold of its log, and is never negative. Every method keeps Valid()
        and leaves `openings` as it was (OpenWallet only appends), so this holds after any
        sequence of calls, against the balance each wallet was opened with. */
    lemma Reconciled()
      requires Valid()
      ensures forall i :: 0 <= i < |wallets| ==>
                wallets[i].balance == openings[i] + SignedSum(wallets[i].transactions) && wallets[i].balance >= 0
    {
      WalletsReconcile(wallets, openings, |invoices|, |payments|);
    }

    /** Wallet.objects.create for a customer without a wallet: active, auto-payment as given,
        opened with a non-negative balance and an empty log. */
    method OpenWallet(customer: nat, openingBalance: int, autoPaymentEnabled: bool) returns (walletId: nat)
      requires Valid() && openingBalance >= 0 && FindWallet(wallets, customer).None?
      modifies this
      ensures Valid()
      ensures openings == old(openings) + [openingBalance]
      ensures walletId == |old(wallets)| + 1
      ensures wallets == old(wallets) + [Wallet(customer, openingBalance, Usd, true, autoPaymentEnabled, [])]
      ensures cargos == old(cargos) && history == old(history) && invoices == old(invoices)
      ensures payments == old(payments) && transactions == old(transactions) && releaseOrders == old(releaseOrders)
    {
      wallets := wallets + [Wallet(customer, openingBalance, Usd, true, autoPaymentEnabled, [])];
      openings := openings + [openingBalance];
      walletId := |wallets|;
    }

    /** Wallet.deposit: a non-positive amount raises and changes nothing; otherwise the balance
        rises by the amount and one deposit entry records the balances before and after. */
    method Deposit(walletId: nat, amount: int, reference: string, description: Option<string>)
      returns (r: Result<int, string>)
      requires Valid() && IsId(walletId, |wallets|)
      modifies this
      ensures Valid()
      ensures openings == old(openings)
      ensures cargos == old(cargos) && history == old(history) && invoices == old(invoices)
      ensures payments == old(payments) && transactions == old(transactions) && releaseOrders == old(releaseOrders)
      ensures amount <= 0 ==> r == Err("Deposit amount must be positive") && wallets == old(wallets)
      ensures amount > 0 ==>
        var w := old(wallets[walletId - 1]);
        var e := WalletTransaction(DepositTx, amount, w.balance, w.balance + amount, reference,
                                   DescriptionOr(description, "Deposit of $" + MoneyText(amount)), None, None, EntrySuccess);
        && r == Ok(w.balance + amount)
        && wallets == old(wallets)[walletId - 1 := w.(balance := w.balance + amount, transactions := w.transactions + [e])]
    {
      if amount <= 0 {
        return Err("Deposit amount must be positive");
      }
      var w := wallets[walletId - 1];
      var balanceBefore := w.balance;
      var e := WalletTransaction(DepositTx, amount, balanceBefore, balanceBefore + amount, reference,
                                 DescriptionOr(description, "Deposit of $" + MoneyText(amount)), None, None, EntrySuccess);
      Append(walletId, e);
      r := Ok(wallets[walletId - 1].balance);
    }

    /** Wallet.withdraw: a non-positive amount, or one above the balance, raises and changes
        nothing; otherwise the balance falls by the amount and one withdrawal entry is recorded. */
    method Withdraw(walletId: nat, amount: int, reference: string, description: Option<string>)
      returns (r: Result<int, string>)
      requires Valid() && IsId(walletId, |wallets|)
      modifies this
      ensures Valid()
      ensures openings == old(openings)
      ensures cargos == old(cargos) && history == old(history) && invoices == old(invoices)
      ensures payments == old(payments) && transactions == old(transactions) && releaseOrders == old(releaseOrders)
      ensures amount <= 0 ==> r == Err("Withdrawal amount must be positive") && wallets == old(wallets)
      ensures amount > 0 && !HasSufficientBalance(old(wallets[walletId - 1]), amount) ==>
                r == Err("Insufficient wallet balance") && wallets == old(wallets)
      ensures amount > 0 && HasSufficientBalance(old(wallets[walletId - 1]), amount) ==>
        var w := old(wallets[walletId - 1]);
        var e := WalletTransaction(WithdrawalTx, amount, w.balance, w.balance - amount, reference,
                                   DescriptionOr(description, "Withdrawal of $" + MoneyText(amount)), None, None, EntrySuccess);
        && r == Ok(w.balance - amount)
        && wallets == old(wallets)[walletId - 1 := w.(balance := w.balance - amount, transactions := w.transactions + [e])]
    {
      if amount <= 0 {
        return Err("Withdrawal amount must be positive");
      }
      var w := wallets[walletId - 1];
      if !HasSufficientBalance(w, amount) {
        return Err("Insufficient wallet balance");
      }
      var balanceBefore := w.balance;
      var e := WalletTransaction(WithdrawalTx, amount, balanceBefore, balanceBefore - amount, reference,
                                 DescriptionOr(description, "Withdrawal of $" + MoneyText(amount)), None, None, EntrySuccess);
      Append(walletId, e);
      r := Ok(wallets[walletId - 1].balance);
    }

    /** Wallet.pay_invoice: the guards of withdraw, then the balance falls by the amount and one
        payment entry, linked to the invoice and referenced "INV-" + its control number, is recorded. */
    method PayInvoice(walletId: nat, invoiceId: nat, amount: int, description: Option<string>)
      returns (r: Result<int, string>)
      requires Valid() && IsId(walletId, |wallets|) && IsId(invoiceId, |invoices|)
      modifies this
      ensures Valid()
      ensures openings == old(openings)
      ensures cargos == old(cargos) && history == old(history) && invoices == old(invoices)
      ensures payments == old(payments) && transactions == old(transactions) && releaseOrders == old(releaseOrders)
      ensures amount <= 0 ==> r == Err("Payment amount must be positive") && wallets == old(wallets)
      ensures amount > 0 && !HasSufficientBalance(old(wallets[walletId - 1]), amount) ==>
                r == Err("Insufficient wallet balance") && wallets == old(wallets)
      ensures amount > 0 && HasSufficientBalance(old(wallets[walletId - 1]), amount) ==>
        var w := old(wallets[walletId - 1]);
        var cn := invoices[invoiceId - 1].controlNumber;
        var e := WalletTransaction(PaymentTx, amount, w.balance, w.balance - amount, "INV-" + cn,
                                   DescriptionOr(description, "Payment for invoice " + cn), Some(invoiceId), None, EntrySuccess);
        && r == Ok(w.balance - amount)
        && wallets == old(wallets)[walletId - 1 := w.(balance := w.balance - amount, transactions := w.transactions + [e])]
    {
      if amount <= 0 {
        return Err("Payment amount must be positive");
      }
      var w := wallets[walletId - 1];
      if !HasSufficientBalance(w, amount) {
        return Err("Insufficient wallet balance");
      }
      var cn := invoices[invoiceId - 1].controlNumber;
      var balanceBefore := w.balance;
      var e := WalletTransaction(PaymentTx, amount, balanceBefore, balanceBefore - amount, "INV-" + cn,
                                 DescriptionOr(description, "Payment for invoice " + cn), Some(invoiceId), None, EntrySuccess);
      Append(walletId, e);
      r := Ok(wallets[walletId - 1].balance);
    }

    /** The common write of the three ledger operations: move the balance to e's balance_after
        and append e to the wallet's log. */
    method Append(walletId: nat, e: WalletTransaction)
      requires Valid() && IsId(walletId, |wallets|)
      requires e.balanceBefore == wallets[walletId - 1].balance
      requires e.balanceAfter == e.balanceBefore + Signed(e) && e.balanceAfter >= 0
      requires LinksExist(e, |invoices|, |payments|)
      modifies this
      ensures Valid()
      ensures openings == old(openings)
      ensures cargos == old(cargos) && history == old(history) && invoices == old(invoices)
      ensures payments == old(payments) && transactions == old(transactions) && releaseOrders == old(releaseOrders)
      ensures var w := old(wallets[walletId - 1]);
              wallets == old(wallets)[walletId - 1 := w.(balance := e.balanceAfter, transactions := w.transactions + [e])]
    {
      var w := wallets[walletId - 1];
      var w' := w.(balance := e.balanceAfter, transactions := w.transactions + [e]);
      AppendKeepsLedger(w, openings[walletId - 1], e);
      assert WalletLinksExist(w', |invoices|, |payments|) by {
        assert forall k :: 0 <= k < |w.transactions| ==> w'.transactions[k] == w.transactions[k];
      }
      WalletReplaced(wallets, openings, |invoices|, |payments|, walletId - 1, w');
      wallets := wallets[walletId - 1 := w'];
    }

    /** The settlement writes shared by manual payment and auto-payment: a completed Payment,
        the invoice marked paid with the method, a successful cargo_payment Transaction under the
        payment's reference, and an active ReleaseOrder for the invoice's cargo. */
    method Settle(invoiceId: nat, amount: int, reference: string, paymentMethod: string,
                  actor: Option<nat>, now: Now, code: string)
      returns (paymentId: nat, releaseOrderId: nat)
      requires Valid() && IsId(invoiceId, |invoices|) && invoices[invoiceId - 1].status != Paid
      requires FreshReleaseCode(code)
      modifies this
      ensures Valid()
      ensures openings == old(openings)
      ensures paymentId == |old(payments)| + 1 && releaseOrderId == |old(releaseOrders)| + 1
      ensures invoices == old(invoices)[invoiceId - 1 := old(invoices)[invoiceId - 1].(status := Paid, paymentMethod := Some(paymentMethod))]
      ensures payments == old(payments) + [Payment(invoiceId, amount, reference, paymentMethod, Completed, actor, Some(now.instant))]
      ensures transactions == old(transactions) + [Transaction(paymentId, CargoPayment, amount, Usd, TxSuccess, reference, actor)]
      ensures releaseOrders == old(releaseOrders) + [ReleaseOrder(old(invoices)[invoiceId - 1].cargo, paymentId, code, Active, actor, now.instant, None)]
      ensures cargos == old(cargos) && history == old(history) && wallets == old(wallets)
    {
      paymentId := |payments| + 1;
      var p := Payment(invoiceId, amount, reference, paymentMethod, Completed, actor, Some(now.instant));
      var t := Transaction(paymentId, CargoPayment, amount, Usd, TxSuccess, reference, actor);
      var o := ReleaseOrder(invoices[invoiceId - 1].cargo, paymentId, code, Active, actor, now.instant, None);
      MarkPaidKeepsInvoices(|cargos|, invoices, invoiceId, paymentMethod);
      SettleKeepsPayments(invoices, payments, invoiceId, p, paymentMethod);
      SettleKeepsTransactions(payments, transactions, p, t);
      SettleKeepsReleaseOrders(invoices, payments, releaseOrders, invoiceId, p, o, paymentMethod);
      TablesGrowKeepWallets(wallets, openings, |invoices|, |payments|, |invoices|, |payments| + 1);
      payments := payments + [p];
      invoices := MarkPaid(invoices, invoiceId, paymentMethod);
      transactions := transactions + [t];
      releaseOrders := releaseOrders + [o];
      releaseOrderId := |releaseOrders|;
    }

    /** Replace entry k of wallet walletId's log by e, which keeps the entry's signed amount
        and balances (the relabelling of the auto-payment). */
    method Relabel(walletId: nat, k: nat, e: WalletTransaction)
      requires Valid() && IsId(walletId, |wallets|) && k < |wallets[walletId - 1].transactions|
      requires e.balanceBefore == wallets[walletId - 1].transactions[k].balanceBefore
      requires e.balanceAfter == wallets[walletId - 1].transactions[k].balanceAfter
      requires Signed(e) == Signed(wallets[walletId - 1].transactions[k])
      requires LinksExist(e, |invoices|, |payments|)
      modifies this
      ensures Valid()
      ensures openings == old(openings)
      ensures cargos == old(cargos) && history == old(history) && invoices == old(invoices)
      ensures payments == old(payments) && transactions == old(transactions) && releaseOrders == old(releaseOrders)
      ensures var w := old(wallets[walletId - 1]);
              wallets == old(wallets)[walletId - 1 := w.(transactions := w.transactions[k := e])]
    {
      var w := wallets[walletId - 1];
      var w' := w.(transactions := w.transactions[k := e]);
      RelabelKeepsLedger(w, openings[walletId - 1], k, e);
      assert WalletLinksExist(w', |invoices|, |payments|);
      WalletReplaced(wallets, openings, |invoices|, |payments|, walletId - 1, w');
      wallets := wallets[walletId - 1 := w'];
    }

    /** The relabelling step of process_auto_payment: the newest payment entry of the wallet
        for the invoice becomes an auto_payment entry linked to the payment. When the wallet's
        last entry pays the invoice, that is the entry relabelled. */
    method RelabelLatest(walletId: nat, invoiceId: nat, paymentId: nat)
      requires Valid() && IsId(walletId, |wallets|) && IsId(invoiceId, |invoices|) && IsId(paymentId, |payments|)
      requires var log := wallets[walletId - 1].transactions; |log| > 0 && PaysInvoice(log[|log| - 1], invoiceId)
      modifies this
      ensures Valid()
      ensures openings == old(openings)
      ensures cargos == old(cargos) && history == old(history) && invoices == old(invoices)
      ensures payments == old(payments) && transactions == old(transactions) && releaseOrders == old(releaseOrders)
      ensures var w := old(wallets[walletId - 1]);
              var n := |w.transactions| - 1;
              wallets == old(wallets)[walletId - 1 := w.(transactions := w.transactions[n := w.transactions[n].(kind := AutoPaymentTx, payment := Some(paymentId))])]
    {
      var log := wallets[walletId - 1].transactions;
      var latest := LatestPaymentEntry(log, invoiceId);
      if latest.Some? {
        var k := latest.value;
        Relabel(walletId, k, log[k].(kind := AutoPaymentTx, payment := Some(paymentId)));
      }
    }

    /** process_auto_payment: the guard chain of Screen on the customer's wallet and the
        invoice. A refusal changes nothing; when every guard passes the wallet settles the
        invoice as WalletSettle states. */
    method ProcessAutoPayment(invoiceId: nat, actor: Option<nat>, now: Now, refUuid: string, releaseUuid: string)
      returns (outcome: AutoPayOutcome)
      requires Valid() && IsId(invoiceId, |invoices|)
      requires IsCivil(now.date) && IsUuidHex(refUuid) && IsUuidHex(releaseUuid)
      requires FreshReleaseCode(ReleaseCode(now.date, releaseUuid))
      modifies this
      ensures Valid()
      ensures openings == old(openings)
      ensures cargos == old(cargos) && history == old(history)
      ensures Screen(old(InvoiceWallet(invoiceId)), old(invoices[invoiceId - 1])).Some? ==>
                outcome == Screen(old(InvoiceWallet(invoiceId)), old(invoices[invoiceId - 1])).value && unchanged(this)
      ensures Screen(old(InvoiceWallet(invoiceId)), old(invoices[invoiceId - 1])).None? ==>
        var wi := FindWallet(old(wallets), cargos[old(invoices[invoiceId - 1]).cargo - 1].customer).value;
        WalletSettled(old(wallets), old(invoices), old(payments), old(transactions), old(releaseOrders),
                      wallets, invoices, payments, transactions, releaseOrders,
                      invoiceId, wi, actor, now, refUuid, releaseUuid, outcome)
    {
      var inv := invoices[invoiceId - 1];
      var customer := cargos[inv.cargo - 1].customer;
      var screen := Screen(WalletOf(wallets, customer), inv);
      if screen.Some? {
        return screen.value;
      }
      var wi := FindWallet(wallets, customer).value;
      outcome := WalletSettle(invoiceId, wi, actor, now, refUuid, releaseUuid);
    }

    /** The success path of process_auto_payment: the wallet pays the invoice, a completed
        wallet Payment with a "WLT-AUTO-" reference settles it with its Transaction and
        ReleaseOrder, and the wallet's payment entry for the invoice is relabelled auto_payment
        and linked to the Payment. */
    method WalletSettle(invoiceId: nat, wi: nat, actor: Option<nat>, now: Now, refUuid: string, releaseUuid: string)
      returns (outcome: AutoPayOutcome)
      requires Valid() && IsId(invoiceId, |invoices|) && wi < |wallets|
      requires AutoPayable(Some(wallets[wi]), invoices[invoiceId - 1])
      requires IsCivil(now.date) && IsUuidHex(refUuid) && IsUuidHex(releaseUuid)
      requires FreshReleaseCode(ReleaseCode(now.date, releaseUuid))
      modifies this
      ensures Valid()
      ensures openings == old(openings)
      ensures cargos == old(cargos) && history == old(history)
      ensures WalletSettled(old(wallets), old(invoices), old(payments), old(transactions), old(releaseOrders),
                            wallets, invoices, payments, transactions, releaseOrders,
                            invoiceId, wi, actor, now, refUuid, releaseUuid, outcome)
    {
      var inv := invoices[invoiceId - 1];
      ghost var w := wallets[wi];
      ghost var wallets0, invoices0, payments0 := wallets, invoices, payments;
      ghost var transactions0, releaseOrders0 := transactions, releaseOrders;
      var walletId := wi + 1;
      var balanceBefore := wallets[wi].balance;
      var description := "Auto-payment for invoice " + inv.controlNumber;
      assert Present(Some(description));
      ghost var e0 := WalletTransaction(PaymentTx, inv.amount, w.balance, w.balance - inv.amount, "INV-" + inv.controlNumber,
                                        description, Some(invoiceId), None, EntrySuccess);
      var _ := PayInvoice(walletId, invoiceId, inv.amount, Some(description));
      ghost var w1 := w.(balance := w.balance - inv.amount, transactions := w.transactions + [e0]);
      assert wallets == wallets0[wi := w1];
      var code := ReleaseCode(now.date, releaseUuid);
      var paymentId, releaseOrderId := SettleFromWallet(invoiceId, wi, inv.amount, actor, now, AutoPaymentReference(refUuid), code);
      ghost var e := e0.(kind := AutoPaymentTx, payment := Some(paymentId));
      RelabelLast(w, w1, wallets[wi], e);
      assert wallets == wallets0[wi := w1.(transactions := w.transactions + [e])];
      outcome := AutoPaid(paymentId, releaseOrderId, code, balanceBefore, wallets[wi].balance);
    }

    /** The writes of process_auto_payment after the wallet debit: the settlement by wallet and
        the relabelling of the wallet's last entry, the one the debit wrote. */
    method SettleFromWallet(invoiceId: nat, wi: nat, amount: int, actor: Option<nat>, now: Now, reference: string, code: string)
      returns (paymentId: nat, releaseOrderId: nat)
      requires Valid() && IsId(invoiceId, |invoices|) && invoices[invoiceId - 1].status != Paid && wi < |wallets|
      requires var log := wallets[wi].transactions; |log| > 0 && PaysInvoice(log[|log| - 1], invoiceId)
      requires FreshReleaseCode(code)
      modifies this
      ensures Valid()
      ensures openings == old(openings)
      ensures paymentId == |old(payments)| + 1 && releaseOrderId == |old(releaseOrders)| + 1
      ensures invoices == old(invoices)[invoiceId - 1 := old(invoices)[invoiceId - 1].(status := Paid, paymentMethod := Some(WalletMethod))]
      ensures payments == old(payments) + [Payment(invoiceId, amount, reference, WalletMethod, Completed, actor, Some(now.instant))]
      ensures transactions == old(transactions) + [Transaction(paymentId, CargoPayment, amount, Usd, TxSuccess, reference, actor)]
      ensures releaseOrders == old(releaseOrders) + [ReleaseOrder(old(invoices)[invoiceId - 1].cargo, paymentId, code, Active, actor, now.instant, None)]
      ensures cargos == old(cargos) && history == old(history)
      ensures var w := old(wallets[wi]);
              var n := |w.transactions| - 1;
              wallets == old(wallets)[wi := w.(transactions := w.transactions[n := w.transactions[n].(kind := AutoPaymentTx, payment := Some(paymentId))])]
    {
      paymentId, releaseOrderId := Settle(invoiceId, amount, reference, WalletMethod, actor, now, code);
      RelabelLatest(wi + 1, invoiceId, paymentId);
    }

    /** process_payment: the three fields must be present and non-empty, the id and control
        number must name one invoice, and that invoice must not be paid already; then it is
        settled with the amount given (not compared with the invoice amount), the method given
        (mobile money by default) and the reference given ("PAY-" + eight hex characters by default). */
    method ProcessPayment(invoiceId: Option<int>, controlNumber: Option<string>, amountPaid: Option<int>,
                          paymentMethod: Option<string>, reference: Option<string>,
                          actor: nat, now: Now, refUuid: string, releaseUuid: string)
      returns (r: Result<Settlement, ApiError>)
      requires Valid()
      requires IsCivil(now.date) && IsUuidHex(refUuid) && IsUuidHex(releaseUuid)
      requires FreshReleaseCode(ReleaseCode(now.date, releaseUuid))
      modifies this
      ensures Valid()
      ensures openings == old(openings)
      ensures !(PresentNumber(invoiceId) && Present(controlNumber) && PresentNumber(amountPaid)) ==>
                r == Err(BadRequest("Invoice ID, control number, and amount are required")) && unchanged(this)
      ensures PresentNumber(invoiceId) && Present(controlNumber) && PresentNumber(amountPaid) &&
              !(IsId(invoiceId.value, |old(invoices)|) && old(invoices)[invoiceId.value - 1].controlNumber == controlNumber.value) ==>
                r == Err(NotFound("Invalid invoice or control number")) && unchanged(this)
      ensures PresentNumber(invoiceId) && Present(controlNumber) && PresentNumber(amountPaid) &&
              IsId(invoiceId.value, |old(invoices)|) && old(invoices)[invoiceId.value - 1].controlNumber == controlNumber.value &&
              old(invoices)[invoiceId.value - 1].status == Paid ==>
                r == Err(BadRequest("Invoice already paid")) && unchanged(this)
      ensures r.Ok? <==>
                PresentNumber(invoiceId) && Present(controlNumber) && PresentNumber(amountPaid) &&
                IsId(invoiceId.value, |old(invoices)|) && old(invoices)[invoiceId.value - 1].controlNumber == controlNumber.value &&
                old(invoices)[invoiceId.value - 1].status != Paid
      ensures r.Ok? ==>
        var k := invoiceId.value;
        var m := paymentMethod.GetOr(MobileMoney);
        var ref := if Present(reference) then reference.value else ManualPaymentReference(refUuid);
        var paymentId := |old(payments)| + 1;
        && r.value == Settlement(paymentId, |old(releaseOrders)| + 1)
        && invoices == old(invoices)[k - 1 := old(invoices)[k - 1].(status := Paid, paymentMethod := Some(m))]
        && payments == old(payments) + [Payment(k, amountPaid.value, ref, m, Completed, Some(actor), Some(now.instant))]
        && transactions == old(transactions) + [Transaction(paymentId, CargoPayment, amountPaid.value, Usd, TxSuccess, ref, Some(actor))]
        && releaseOrders == old(releaseOrders) +
             [ReleaseOrder(old(invoices)[k - 1].cargo, paymentId, ReleaseCode(now.date, releaseUuid), Active, Some(actor), now.instant, None)]
        && cargos == old(cargos) && history == old(history) && wallets == old(wallets)
    {
      if !PresentNumber(invoiceId) || !Present(controlNumber) || !PresentNumber(amountPaid) {
        return Err(BadRequest("Invoice ID, control number, and amount are required"));
      }
      var k := invoiceId.value;
      if !(IsId(k, |invoices|) && invoices[k - 1].controlNumber == controlNumber.value) {
        return Err(NotFound("Invalid invoice or control number"));
      }
      if invoices[k - 1].status == Paid {
        return Err(BadRequest("Invoice already paid"));
      }
      var m := paymentMethod.GetOr(MobileMoney);
      var ref := if Present(reference) then reference.value else ManualPaymentReference(refUuid);
      var paymentId, releaseOrderId := Settle(k, amountPaid.value, ref, m, Some(actor), now, ReleaseCode(now.date, releaseUuid));
      r := Ok(Settlement(paymentId, releaseOrderId));
    }

    /** Replace cargo `id` by `c`, which keeps its tracking number, and append history row h. */
    method Touch(id: nat, c: Cargo, h: CargoHistory)
      requires Valid() && IsId(id, |cargos|) && c.trackingNumber == cargos[id - 1].trackingNumber
      requires h.cargo == id
      modifies this
      ensures Valid()
      ensures openings == old(openings)
      ensures cargos == old(cargos)[id - 1 := c] && history == old(history) + [h]
      ensures invoices == old(invoices) && payments == old(payments) && transactions == old(transactions)
      ensures releaseOrders == old(releaseOrders) && wallets == old(wallets)
    {
      HistoryAppended(|cargos|, history, h);
      cargos := cargos[id - 1 := c];
      history := history + [h];
    }

    /** complete_release_order: an unknown id is not found and an order that is not active is
        refused; otherwise the order becomes used at this instant, its cargo is delivered, and
        a history row records arrived -> delivered, collected by the customer. */
    method CompleteReleaseOrder(releaseOrderId: int, actor: nat, now: Now) returns (r: Result<ReleaseOrder, ApiError>)
      requires Valid()
      modifies this
      ensures Valid()
      ensures openings == old(openings)
      ensures !IsId(releaseOrderId, |old(releaseOrders)|) ==> r == Err(NotFound("Release order not found")) && unchanged(this)
      ensures IsId(releaseOrderId, |old(releaseOrders)|) && old(releaseOrders)[releaseOrderId - 1].status != Active ==>
                r == Err(BadRequest("Release order already used or expired")) && unchanged(this)
      ensures IsId(releaseOrderId, |old(releaseOrders)|) && old(releaseOrders)[releaseOrderId - 1].status == Active ==>
        var o := old(releaseOrders)[releaseOrderId - 1];
        var o' := o.(status := Used, usedAt := Some(now.instant));
        && IsId(o.cargo, |old(cargos)|)
        && r == Ok(o')
        && releaseOrders == old(releaseOrders)[releaseOrderId - 1 := o']
        && cargos == old(cargos)[o.cargo - 1 := Saved(old(cargos)[o.cargo - 1].(status := Delivered))]
        && history == old(history) + [CargoHistory(o.cargo, Some(Arrived), Delivered, Some(actor), Some("Cargo collected by customer"), now.instant)]
        && invoices == old(invoices) && payments == old(payments) && transactions == old(transactions) && wallets == old(wallets)
    {
      if !IsId(releaseOrderId, |releaseOrders|) {
        return Err(NotFound("Release order not found"));
      }
      var o := releaseOrders[releaseOrderId - 1];
      if o.status != Active {
        return Err(BadRequest("Release order already used or expired"));
      }
      var o' := o.(status := Used, usedAt := Some(now.instant));
      OrderUsedKeepsInvariant(invoices, payments, releaseOrders, releaseOrderId - 1, now.instant);
      releaseOrders := releaseOrders[releaseOrderId - 1 := o'];
      var id := o.cargo;
      var c := Saved(cargos[id - 1].(status := Delivered));
      Touch(id, c, CargoHistory(id, Some(Arrived), Delivered, Some(actor), Some("Cargo collected by customer"), now.instant));
      r := Ok(o');
    }

    /** Invoice.objects.create: append an invoice for an existing cargo under a fresh control number. */
    method AddInvoice(inv: Invoice) returns (invoiceId: nat)
      requires Valid() && IsId(inv.cargo, |cargos|) && FreshControlNumber(inv.controlNumber)
      modifies this
      ensures Valid()
      ensures openings == old(openings)
      ensures invoiceId == |old(invoices)| + 1 && invoices == old(invoices) + [inv]
      ensures cargos == old(cargos) && history == old(history) && payments == old(payments)
      ensures transactions == old(transactions) && releaseOrders == old(releaseOrders) && wallets == old(wallets)
    {
      InvoiceAddedKeepsInvariants(|cargos|, invoices, payments, releaseOrders, inv);
      TablesGrowKeepWallets(wallets, openings, |invoices|, |payments|, |invoices| + 1, |payments|);
      invoices := invoices + [inv];
      invoiceId := |invoices|;
    }

    /** generate_invoice: cargo id and amount must be present and non-zero, and the cargo must
        exist; the new invoice is pending, in USD, for the amount given, due seven days from today,
        under a fresh control number. */
    method GenerateInvoice(cargoId: Option<int>, amount: Option<int>, actor: nat, now: Now, controlUuid: string)
      returns (r: Result<nat, ApiError>)
      requires Valid() && IsCivil(now.date) && IsUuidHex(controlUuid)
      requires FreshControlNumber(ControlNumber(now.date, controlUuid))
      modifies this
      ensures Valid()
      ensures openings == old(openings)
      ensures !(PresentNumber(cargoId) && PresentNumber(amount)) ==>
                r == Err(BadRequest("Cargo ID and amount are required")) && unchanged(this)
      ensures PresentNumber(cargoId) && PresentNumber(amount) && !IsId(cargoId.value, |old(cargos)|) ==>
                r == Err(NotFound("Cargo not found")) && unchanged(this)
      ensures PresentNumber(cargoId) && PresentNumber(amount) && IsId(cargoId.value, |old(cargos)|) ==>
        && r == Ok(|old(invoices)| + 1)
        && invoices == old(invoices) +
             [Invoice(cargoId.value, ControlNumber(now.date, controlUuid), amount.value, Usd, now.today + 7, Pending, None, Some(actor))]
        && cargos == old(cargos) && history == old(history) && payments == old(payments)
        && transactions == old(transactions) && releaseOrders == old(releaseOrders) && wallets == old(wallets)
      ensures r.Ok? ==> forall day {:trigger IsOverdue(invoices[r.value - 1], day)} ::
                          IsOverdue(invoices[r.value - 1], day) <==> day > now.today + 7
    {
      if !PresentNumber(cargoId) || !PresentNumber(amount) {
        return Err(BadRequest("Cargo ID and amount are required"));
      }
      if !IsId(cargoId.value, |cargos|) {
        return Err(NotFound("Cargo not found"));
      }
      var inv := Invoice(cargoId.value, ControlNumber(now.date, controlUuid), amount.value, Usd,
                         now.today + PaymentTermDays, Invoices.DefaultStatus, None, Some(actor));
      var invoiceId := AddInvoice(inv);
      r := Ok(invoiceId);
    }

    /** cargo_list_create (POST): a request the serializer rejects, or one naming a status outside
        the four declared ones, is refused; otherwise the cargo is saved (the CBM rule applies)
        under a fresh tracking number, with the status given or pending, and a history row
        records its registration as pending. */
    method RegisterCargo(input: CargoInput, valid: bool, actor: nat, now: Now, trackingUuid: string)
      returns (r: Result<nat, ApiError>)
      requires Valid() && IsUuidHex(trackingUuid)
      requires FreshTrackingNumber(TrackingNumber(now.date.year, trackingUuid))
      modifies this
      ensures Valid()
      ensures openings == old(openings)
      ensures !(valid && (input.status.Some? ==> IsDeclaredStatus(input.status.value))) ==>
                r == Err(Invalid) && unchanged(this)
      ensures valid && (input.status.Some? ==> IsDeclaredStatus(input.status.value)) ==>
        var c := Cargo(input.customer, input.warehouse, TrackingNumber(now.date.year, trackingUuid), input.name,
                       input.origin, input.destination, input.weight, input.value, input.cbm, input.width,
                       input.height, input.length, input.status.GetOr(Cargos.DefaultStatus), Some(actor));
        && r == Ok(|old(cargos)| + 1)
        && cargos == old(cargos) + [Saved(c)]
        && history == old(history) + [CargoHistory(|old(cargos)| + 1, None, Cargos.Pending, Some(actor), Some("Cargo registered"), now.instant)]
        && invoices == old(invoices) && payments == old(payments) && transactions == old(transactions)
        && releaseOrders == old(releaseOrders) && wallets == old(wallets)
    {
      if !valid || (input.status.Some? && !IsDeclaredStatus(input.status.value)) {
        return Err(Invalid);
      }
      var c := Cargo(input.customer, input.warehouse, TrackingNumber(now.date.year, trackingUuid), input.name,
                     input.origin, input.destination, input.weight, input.value, input.cbm, input.width,
                     input.height, input.length, input.status.GetOr(Cargos.DefaultStatus), Some(actor));
      var id := |cargos| + 1;
      var h := CargoHistory(id, None, Cargos.Pending, Some(actor), Some("Cargo registered"), now.instant);
      CargoCountGrows(|cargos|, id, history, invoices);
      HistoryAppended(id, history, h);
      cargos := cargos + [Saved(c)];
      history := history + [h];
      r := Ok(id);
    }

    /** cargo_update_status: an unknown cargo is not found and an empty status is refused; any
        other status is stored as given, with a history row from the previous status. A status of
        "arrived" also raises an invoice for 30% of the cargo value, due in seven days, and runs
        the auto-payment on it, which pays it exactly when the customer's wallet passes Screen. */
    method UpdateCargoStatus(cargoId: int, newStatus: Option<string>, remarks: Option<string>, actor: nat, now: Now,
                             controlUuid: string, refUuid: string, releaseUuid: string)
      returns (r: Result<Cargo, ApiError>, autoPay: Option<AutoPayOutcome>)
      requires Valid()
      requires IsCivil(now.date) && IsUuidHex(controlUuid) && IsUuidHex(refUuid) && IsUuidHex(releaseUuid)
      requires FreshControlNumber(ControlNumber(now.date, controlUuid)) && FreshReleaseCode(ReleaseCode(now.date, releaseUuid))
      modifies this
      ensures Valid()
      ensures openings == old(openings)
      ensures !IsId(cargoId, |old(cargos)|) ==> r == Err(NotFound("Cargo not found")) && unchanged(this)
      ensures IsId(cargoId, |old(cargos)|) && !Present(newStatus) ==> r == Err(BadRequest("Status is required")) && unchanged(this)
      ensures IsId(cargoId, |old(cargos)|) && Present(newStatus) ==>
        var c := old(cargos)[cargoId - 1];
        && r == Ok(Saved(c.(status := newStatus.value)))
        && cargos == old(cargos)[cargoId - 1 := Saved(c.(status := newStatus.value))]
        && history == old(history) + [CargoHistory(cargoId, Some(c.status), newStatus.value, Some(actor), Some(remarks.GetOr("")), now.instant)]
      ensures (autoPay.Some? <==> IsId(cargoId, |old(cargos)|) && newStatus == Some(Arrived))
      ensures autoPay.None? ==>
        invoices == old(invoices) && payments == old(payments) && transactions == old(transactions)
        && releaseOrders == old(releaseOrders) && wallets == old(wallets)
      ensures autoPay.Some? ==>
        var c := old(cargos)[cargoId - 1];
        var inv := ArrivalInvoice(cargoId, c, ControlNumber(now.date, controlUuid), now, actor);
        var screen := Screen(WalletOf(old(wallets), c.customer), inv);
        screen.Some? ==>
          && autoPay.value == screen.value
          && invoices == old(invoices) + [inv] && payments == old(payments) && transactions == old(transactions)
          && releaseOrders == old(releaseOrders) && wallets == old(wallets)
      ensures autoPay.Some? ==>
        var c := old(cargos)[cargoId - 1];
        var inv := ArrivalInvoice(cargoId, c, ControlNumber(now.date, controlUuid), now, actor);
        var screen := Screen(WalletOf(old(wallets), c.customer), inv);
        screen.None? ==>
          WalletSettled(old(wallets), old(invoices) + [inv], old(payments), old(transactions), old(releaseOrders),
                        wallets, invoices, payments, transactions, releaseOrders,
                        |old(invoices)| + 1, FindWallet(old(wallets), c.customer).value, Some(actor), now,
                        refUuid, releaseUuid, autoPay.value)
    {
      autoPay := None;
      if !IsId(cargoId, |cargos|) {
        return Err(NotFound("Cargo not found")), None;
      }
      if !Present(newStatus) {
        return Err(BadRequest("Status is required")), None;
      }
      var c := cargos[cargoId - 1];
      var previous := c.status;
      var c' := Saved(c.(status := newStatus.value));
      Touch(cargoId, c', CargoHistory(cargoId, Some(previous), newStatus.value, Some(actor), Some(remarks.GetOr("")), now.instant));
      if newStatus.value == Arrived {
        var outcome := InvoiceOnArrival(cargoId, actor, now, controlUuid, refUuid, releaseUuid);
        autoPay := Some(outcome);
      }
      r := Ok(c');
    }

    /** The arrival side effect of cargo_update_status: an invoice for 30% of the cargo value,
        pending and due in seven days, then the auto-payment attempt on it. When the customer's
        wallet fails Screen the outcome is the refusal and nothing else changes; otherwise the
        wallet settles the new invoice as WalletSettled describes. */
    method InvoiceOnArrival(cargoId: nat, actor: nat, now: Now, controlUuid: string, refUuid: string, releaseUuid: string)
      returns (outcome: AutoPayOutcome)
      requires Valid() && IsId(cargoId, |cargos|)
      requires IsCivil(now.date) && IsUuidHex(controlUuid) && IsUuidHex(refUuid) && IsUuidHex(releaseUuid)
      requires FreshControlNumber(ControlNumber(now.date, controlUuid)) && FreshReleaseCode(ReleaseCode(now.date, releaseUuid))
      modifies this
      ensures Valid()
      ensures openings == old(openings)
      ensures cargos == old(cargos) && history == old(history)
      ensures
        var c := cargos[cargoId - 1];
        var inv := ArrivalInvoice(cargoId, c, ControlNumber(now.date, controlUuid), now, actor);
        var screen := Screen(WalletOf(old(wallets), c.customer), inv);
        screen.Some? ==>
          && outcome == screen.value
          && invoices == old(invoices) + [inv] && payments == old(payments) && transactions == old(transactions)
          && releaseOrders == old(releaseOrders) && wallets == old(wallets)
      ensures
        var c := cargos[cargoId - 1];
        var inv := ArrivalInvoice(cargoId, c, ControlNumber(now.date, controlUuid), now, actor);
        var screen := Screen(WalletOf(old(wallets), c.customer), inv);
        screen.None? ==>
          WalletSettled(old(wallets), old(invoices) + [inv], old(payments), old(transactions), old(releaseOrders),
                        wallets, invoices, payments, transactions, releaseOrders,
                        |old(invoices)| + 1, FindWallet(old(wallets), c.customer).value, Some(actor), now,
                        refUuid, releaseUuid, outcome)
    {
      var c := cargos[cargoId - 1];
      var inv := ArrivalInvoice(cargoId, c, ControlNumber(now.date, controlUuid), now, actor);
      var invoiceId := AddInvoice(inv);
      assert InvoiceWallet(invoiceId) == WalletOf(wallets, c.customer);
      outcome := ProcessAutoPayment(invoiceId, Some(actor), now, refUuid, releaseUuid);
    }

    /** public_tracking, answered from the store's cargo and history tables. */
    method PublicTracking(trackingNumber: string) returns (r: Result<TrackingView, ApiError>)
      ensures r == TrackingResult(cargos, history, trackingNumber)
    {
      r := Track(cargos, history, trackingNumber);
    }
  }
}
