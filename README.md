# ZigoPay freight money-and-status core, in Dafny

ZigoPay is a Django back end for a freight warehouse. It registers cargo under a tracking
number and moves each cargo through the statuses pending, in_transit, arrived and delivered,
logging every move in a history. When a cargo arrives it raises an invoice for 30% of the
cargo value. That invoice is paid by hand (process_payment) or from the customer's prefunded
wallet (process_auto_payment). Each payment produces a ledger transaction and a release
order, and a cargo is handed over by completing its release order, which marks the cargo
delivered.

This project models that core as one store (`Freight.Store`). Its tables are sequences of rows:
cargo, cargo history, invoices, payments, transactions, release orders and wallets. Each
wallet carries its own log of wallet transactions. Every request handler or model operation
is one method that changes the tables, and `Valid()` is the invariant every method keeps:

- tracking numbers, control numbers and release codes are unique;
- every reference points at an existing row;
- a completed payment's invoice is paid, and no invoice has two completed payments;
- every transaction mirrors its payment;
- every release order rests on a completed payment for its own cargo, and no payment backs
  two release orders;
- every wallet's log chains from its opening balance to its current balance, with no
  negative balance anywhere.

The opening balances are a ghost field, `openings`. OpenWallet appends one, and every other
method ensures it is unchanged. The ledger identity therefore relates each wallet to the
balance it was really opened with, across any sequence of calls.

Files, one module each:

| file | module | contents |
|---|---|---|
| common.dfy | Common | Option, Result, row ids, Python truthiness of optional fields |
| text.dfy | Text | decimal digits, zero padding, upper-casing of hex, money text |
| codes.dfy | Codes | control numbers, release codes, tracking numbers, payment references, with their parsers |
| invoices.dfy | Invoices | Invoice record and statuses, is_overdue, the 30% arrival amount |
| cargos.dfy | Cargos | Cargo and CargoHistory records, status constants, the CBM save rule, the public timeline and location |
| payments.dfy | Payments | Payment, Transaction, ReleaseOrder, Wallet and WalletTransaction records; the ledger invariant and its reconciliation |
| invariants.dfy | StoreInvariants | the store invariant, split by table, and one preservation lemma per kind of write |
| store.dfy | Freight | the Store class: the ledger operations, auto-payment, manual payment, release-order completion, invoice generation, cargo registration, status update, public tracking |

Modelling choices:

- Money is integer cents. Dates are day numbers, and timestamps are integer instants.
- The clock comes in as a parameter `Now`: an instant, a day number and the calendar date
  that the code formats print.
- Each `uuid4().hex` value comes in as a parameter: 32 lower-case hex characters. Each
  generated code is built from it inside the model. A code that must be unique carries a
  freshness precondition.
- Row id k sits at index k - 1. Ids are never reused, as with Django's AutoField.
- A request is one sequential, atomic method.

## Model

| member | source | states |
|---|---|---|
| Freight.Store.Deposit | apps/payments/models.py:107-130 | An amount <= 0 gives "Deposit amount must be positive" and changes nothing. Otherwise the balance rises by exactly the amount. One deposit entry is appended with balance_before = the old balance and balance_after = old + amount, the given reference, and the description given or "Deposit of $…". The new balance is returned. The ledger invariant is kept. |
| Freight.Store.Withdraw | apps/payments/models.py:132-158 | An amount <= 0 or above the balance is refused with its message and nothing changes. Otherwise the balance falls by the amount and one withdrawal entry with balance_before - balance_after = amount is appended. The new balance is returned, and it is never negative. |
| Freight.Store.PayInvoice | apps/payments/models.py:160-187 | An amount <= 0 gives "Payment amount must be positive" and an amount above the balance gives "Insufficient wallet balance", both changing nothing. Otherwise the balance falls by the amount, as in withdraw. The entry is of type payment, is linked to the invoice, and has reference "INV-" + control number and description "Payment for invoice …" by default. The new balance is returned. |
| Freight.Store.Append | apps/payments/models.py:114-128 | The write shared by the three ledger operations: the balance moves to the entry's balance_after, and exactly this one entry is appended. |
| Freight.Store.OpenWallet | apps/payments/models.py:86-93 | A new wallet for a customer without one: active, in USD, with the given auto-payment flag, a balance >= 0 and an empty log. Its balance is recorded as its opening balance. Nothing else changes. |
| Payments.ChainedBalance | apps/payments/models.py:107-187 | A log whose balance_before/balance_after pairs chain from the opening balance to the closing balance has closing = opening + the signed sum of its amounts. |
| Payments.Reconciles | apps/payments/models.py:107-187 | A consistent wallet's balance equals its opening balance plus the deposits and refunds minus the withdrawals, payments and auto-payments in its log, and it is >= 0. |
| Payments.ChainedExtend | apps/payments/models.py:114-128 | Appending an entry that starts at the closing balance and moves it by its signed amount keeps the chain. |
| Payments.RelabelKeepsChain | apps/payments/utils.py:63-70 | Rewriting one entry without changing its balances or its sign, as the payment to auto_payment relabelling does, keeps the chain. |
| Payments.SufficientBalanceKeepsLedger | apps/payments/models.py:103-105 | For a consistent wallet and a debit entry from the current balance to the balance less the amount, has_sufficient_balance holds exactly when recording the debit keeps the ledger invariant (no negative balance, unbroken chain). |
| Payments.Signed | apps/payments/models.py:190-200 | Deposits and refunds count as +amount. Withdrawals, payments and auto-payments count as -amount. |
| Payments.LatestPaymentEntry | apps/payments/utils.py:63-66 | The newest entry of type payment for the invoice: no later entry matches, and None means no entry matches. |
| StoreInvariants.AppendKeepsLedger | apps/payments/models.py:114-128 | An appended entry whose balances are the old and new balance keeps the wallet's ledger invariant. |
| StoreInvariants.RelabelKeepsLedger | apps/payments/utils.py:67-70 | Relabelling an entry with the same balances and sign keeps the ledger invariant. |
| Freight.Store.Reconciled | apps/payments/models.py:107-187 | In a valid store, every wallet's balance is its recorded opening balance plus the signed fold of its log, and is >= 0. |
| StoreInvariants.WalletsReconcile | apps/payments/models.py:103-187 | In a consistent wallet table, every balance is the opening balance plus the signed fold of its log, and is never negative. |
| StoreInvariants.WalletReplaced | apps/payments/models.py:86-101 | Replacing a wallet by one with the same customer and a consistent ledger keeps the table consistent, with one wallet per customer. |
| Freight.Screen | apps/payments/utils.py:21-45 | The guard chain of the auto-payment, in source order: no wallet; auto-payment disabled or wallet inactive; invoice already paid; insufficient balance, carrying required, available and shortfall = amount - balance > 0; an amount <= 0, refused by pay_invoice. It gives None exactly when every guard passes. |
| Freight.Store.ProcessAutoPayment | apps/payments/utils.py:15-106 | A refusal returns Screen's outcome and changes nothing. When the guards pass, the state after is exactly WalletSettled, and cargo and history are unchanged. |
| Freight.Store.WalletSettle | apps/payments/utils.py:48-103 | Success path. The wallet falls by exactly the invoice amount, with one new auto_payment entry linked to the invoice and the new payment. The invoice becomes paid by wallet. One completed wallet Payment for the invoice amount is added, with its "WLT-AUTO-" reference. One successful cargo_payment Transaction is added. One active ReleaseOrder for the invoice's cargo and that payment is added. The returned balance_before - balance_after is the invoice amount. |
| Freight.Store.SettleFromWallet | apps/payments/utils.py:51-95 | The writes after the debit: the settlement by wallet, and the relabelling of the last wallet entry, which is the one the debit wrote. |
| Freight.Store.RelabelLatest | apps/payments/utils.py:62-70 | When the wallet's last entry pays the invoice, that entry becomes auto_payment and is linked to the payment. The rest of the log is unchanged. |
| Freight.Store.Relabel | apps/payments/utils.py:67-70 | Rewrites one entry in place. The ledger invariant is kept. |
| Freight.RelabelLast | apps/payments/utils.py:49-70 | Appending an entry and then relabelling it equals appending the relabelled entry. |
| Freight.Store.Settle | apps/payments/views.py:93-127 | The settlement writes: one completed Payment, the invoice marked paid with the method, one successful cargo_payment Transaction with the payment's amount and reference, and one active ReleaseOrder for the invoice's cargo and the new payment. Nothing else changes. |
| StoreInvariants.SettleKeepsPayments | apps/payments/views.py:86-106 | Settling an unpaid invoice keeps two facts: every completed payment's invoice is paid, and no invoice has two completed payments. So pending goes to paid at most once. |
| StoreInvariants.SettleKeepsTransactions | apps/payments/views.py:109-118 | A transaction for the new payment, with its amount, its reference and status success, keeps every transaction mirroring its payment. |
| StoreInvariants.SettleKeepsReleaseOrders | apps/payments/views.py:121-127 | An order for the new completed payment and the invoice's cargo, under a fresh code, keeps every order backed. No payment gets two orders. |
| StoreInvariants.MarkPaid | apps/payments/views.py:104-106 | Only invoice k changes. It becomes paid with the method. Cargos and control numbers are unchanged. |
| StoreInvariants.MarkPaidKeepsInvoices | apps/payments/views.py:104-106 | Marking an invoice paid keeps invoices well formed. |
| Freight.Store.ProcessPayment | apps/payments/views.py:60-137 | A missing or falsy id, control number or amount gives a 400 and changes nothing. An id and number naming no single invoice gives a 404 and changes nothing. A paid invoice gives "Invoice already paid" and changes nothing. Success happens exactly when none of these apply. Then the invoice is settled with the given amount, the method (mobile_money by default) and the reference (generated "PAY-…" by default). |
| Freight.Store.CompleteReleaseOrder | apps/payments/views.py:159-201 | An unknown id gives a 404 and an order that is not active gives a 400, both changing nothing. Otherwise the order becomes used with used_at = now, its cargo is saved as delivered, and exactly one history row arrived -> delivered "Cargo collected by customer" is appended. |
| StoreInvariants.OrderUsedKeepsInvariant | apps/payments/views.py:177-179 | Marking an order used keeps every order backed and codes unique. |
| Freight.Store.Touch | apps/cargo/views.py:126-137 | The cargo row is replaced (its tracking number kept) and exactly one history row is appended. Nothing else changes. |
| StoreInvariants.HistoryAppended | apps/cargo/views.py:131-137 | A row for an existing cargo keeps every history row pointing at an existing cargo. |
| Freight.Store.UpdateCargoStatus | apps/cargo/views.py:105-162 | An unknown cargo gives a 404 and an empty status gives a 400, both changing nothing. Otherwise any status string is stored, with no transition check, and one history row previous -> new with the remarks is appended. Other tables change exactly when the status is "arrived", and then the auto-payment outcome is returned beside the cargo. When the customer's wallet fails Screen, the outcome is Screen's refusal and only the arrival invoice (30% of value, pending, due today + 7) is added. When it passes, the state after is exactly WalletSettled for that invoice and wallet. |
| Freight.Store.InvoiceOnArrival | apps/cargo/views.py:140-155 | Adds the arrival invoice, then runs the auto-payment on it and returns its outcome. If the customer's wallet fails Screen, the outcome is the refusal, the invoice is appended pending, and no other table changes. If it passes, the state after is exactly WalletSettled for the new invoice: the wallet falls by the invoice amount with one auto_payment entry, the invoice is paid by wallet, and one payment, transaction and release order for this cargo are added, the order linked to the payment. |
| Freight.ArrivalInvoice | apps/cargo/views.py:145-152 | The arrival invoice is pending, for ArrivalAmount(value), due today + 7. |
| Invoices.ArrivalAmount | apps/cargo/views.py:147 | 30% of the value in cents, rounded half-even. It is within half a cent of 3·value/10, exact when the value is a multiple of 10 cents, and between 0 and the value for a non-negative value. |
| Invoices.TenthHalfEven | apps/cargo/views.py:147 | n/10 rounded to the nearest integer, ties to even. |
| Invoices.TenthHalfEvenUnique | apps/cargo/views.py:147 | The two properties of TenthHalfEven determine its result. |
| Freight.Store.RegisterCargo | apps/cargo/views.py:56-83 | An invalid request, or a status outside the four declared ones, gives a 400 and changes nothing. Otherwise one cargo is appended, saved by the CBM rule, under a fresh tracking number, with the status given or pending. One history row is appended: previous None, new pending, "Cargo registered". |
| StoreInvariants.CargoCountGrows | apps/cargo/views.py:60-62 | Adding cargo keeps the history and the invoices well formed. |
| Freight.Store.PublicTracking | apps/cargo/views.py:188-218 | The answer is TrackingResult over the store's current cargo and history tables. Nothing changes. |
| Freight.TrackingResult | apps/cargo/views.py:188-218 | Not found exactly when no cargo has the tracking number. Otherwise the view holds a cargo of the table with that number, an oldest-first timeline (Timeline of its rows), and CurrentLocation of that cargo. |
| Freight.Track | apps/cargo/views.py:190-213 | The lookup and the timeline loop give exactly TrackingResult. |
| Freight.FindTracking | apps/cargo/views.py:192-193 | Names the cargo with that tracking number, or says none has it. |
| Cargos.RowsFor | apps/cargo/views.py:200 | filter(cargo=cargo): only rows of that cargo, each as many times as in the history. |
| Cargos.InsertByTime | apps/cargo/views.py:200 | Inserting a row into a list sorted by stamp keeps it sorted and adds exactly that row. |
| Cargos.ByTime | apps/cargo/views.py:200 | order_by('updated_at'): a stamp-sorted permutation of its input. |
| Cargos.SortedRowsFor | apps/cargo/views.py:200 | The cargo's rows, sorted by stamp, each as many times as in the history and no other row. |
| Cargos.Entries | apps/cargo/views.py:203-208 | One entry per row, in row order, entry k being row k's new status, stamp and remarks. |
| Cargos.CollectEntries | apps/cargo/views.py:201-208 | The loop that builds the timeline yields exactly the entries of the rows. |
| Cargos.CollectTimeline | apps/cargo/views.py:200-208 | Filtering, ordering and the loop together build exactly Timeline. |
| Cargos.Timeline | apps/cargo/views.py:200-208 | Oldest first. Every entry is the entry of a history row of that cargo, and every such row has its entry in the timeline. |
| Cargos.TimelineIsEntries | apps/cargo/views.py:200-208 | The timeline is the entries of the cargo's rows sorted by stamp. |
| Cargos.EntriesSorted | apps/cargo/views.py:200-208 | Entries of stamp-sorted rows are oldest first. |
| Cargos.TimelineLength | apps/cargo/views.py:200-208 | The timeline has exactly one entry per history row of that cargo. |
| Cargos.CurrentLocation | apps/cargo/views.py:213 | The destination iff the status is arrived, otherwise the origin (delivered included). |
| Codes.TrackingNumber | apps/cargo/models.py:6-8 | "ZP-" + decimal year + "-" + 8 upper-case hex characters. |
| Codes.ParseTrackingNumber | apps/cargo/models.py:6-8 | Parses a string exactly when it has the tracking-number shape. |
| Codes.TrackingNumberRoundTrip | apps/cargo/models.py:6-8 | Parsing a generated tracking number gives back the year and the upper-cased uuid prefix. |
| Codes.TrackingNumberReassembles | apps/cargo/models.py:6-8 | Every well-shaped tracking number is rebuilt from its parsed parts. |
| Cargos.Saved | apps/cargo/models.py:45-49 | Only cbm can change. An already set cbm is never overwritten. Without all three dimensions set nothing changes. With all three set and cbm unset, cbm = l·w·h/1000. |
| Cargos.SavedIdempotent | apps/cargo/models.py:45-49 | Saving twice is the same as saving once. |
| Cargos.VolumeIsSet | apps/cargo/models.py:47-48 | A cbm derived from non-zero dimensions is itself non-zero. |
| Codes.ControlNumber | apps/invoices/models.py:7-11 | "ZP-" + yymmdd + "-" + 6 upper-case hex characters. |
| Codes.ReleaseCode | apps/payments/utils.py:10-12 | "RO-" + yymmdd + "-" + 6 upper-case hex characters. The same format appears at apps/payments/views.py:20-22. |
| Codes.DatedCode | apps/invoices/models.py:9-11 | The shared shape of control numbers and release codes. |
| Codes.ParseDatedCode | apps/invoices/models.py:9-11 | Parses a string exactly when it has the dated-code shape, and yields a 6-character upper-case hex suffix. |
| Codes.DatedCodeRoundTrip | apps/invoices/models.py:9-11 | Parsing a generated code gives back yy, mm, dd and the upper-cased uuid prefix. |
| Codes.DatedCodeReassembles | apps/invoices/models.py:9-11 | Every well-shaped code is rebuilt from its parsed parts. |
| Codes.Yymmdd | apps/invoices/models.py:9 | strftime('%y%m%d') gives six digits. |
| Codes.YymmddRoundTrip | apps/invoices/models.py:9 | The six digits read back as year mod 100, month and day. |
| Codes.ManualPaymentReference | apps/payments/views.py:96 | "PAY-" + 8 upper-case hex characters. |
| Codes.AutoPaymentReference | apps/payments/utils.py:55 | "WLT-AUTO-" + 8 upper-case hex characters. |
| Text.Decimal | apps/cargo/models.py:8 | str() of a natural number: at least one digit, all digits, no leading zero. |
| Text.DecimalThenValue | apps/cargo/models.py:8 | Reading the decimal text of n gives n. |
| Text.ValueThenDecimal | apps/cargo/models.py:8 | Every canonical digit string is the decimal text of its value. |
| Text.LeadingDigitBound | apps/cargo/models.py:8 | A canonical string of two or more digits denotes at least 10. |
| Text.TwoDigits | apps/invoices/models.py:9 | A zero-padded two-digit field reads back as its number. |
| Text.UpperPrefix | apps/invoices/models.py:10 | u[:n].upper() has n characters, each the upper case of u's, all upper-case hex for a uuid hex. |
| Invoices.IsOverdue | apps/invoices/models.py:43-45 | Overdue exactly when pending and the due date lies before today. A paid, cancelled or already-overdue invoice is never overdue. |
| Freight.Store.GenerateInvoice | apps/invoices/views.py:64-99 | A missing or zero cargo id or amount gives a 400, and an unknown cargo a 404, both changing nothing. Otherwise exactly one invoice is appended: the given amount, USD, pending, due today + 7, a fresh control number. That invoice is overdue on exactly the days after today + 7. There is no check for an existing invoice, so repeat calls add more. |
| Freight.Store.AddInvoice | apps/invoices/views.py:85-92 | Appends exactly one invoice for an existing cargo under a fresh control number. Nothing else changes. |
| StoreInvariants.InvoiceAddedKeepsInvariants | apps/invoices/views.py:85-92 | A new invoice for an existing cargo under a fresh control number keeps the invoice, payment and release-order invariants. |
| Freight.FindWallet | apps/payments/utils.py:24-27 | Finds the index of the customer's wallet, or reports that the customer has none. |
| Common.LastWhere | apps/payments/utils.py:24-27 | The last row satisfying the condition, no later row satisfying it, or None when no row does. It is the lookup shared by FindWallet and FindTracking. |

## Left out

Where the code departs from the documented intent of the payment and status workflow, the model follows the code:

- No status-transition check. Any non-empty status string is stored by cargo_update_status
  (apps/cargo/views.py:117-128).
- No amount check. process_payment accepts any amount_paid without comparing it with the
  invoice amount.
- Only a paid invoice is refused for payment: a cancelled or overdue invoice can still be paid.

What the model does not capture:

- I/O is not modelled: HTTP, serializer output, notifications, and the payment gateway of
  apps/payments/services.py are out.
- The clock and randomness, `datetime.now()`, `date.today()` and `uuid4()`, are parameters.
- Consistency between the calendar date and the day number is not modelled.
- Uniqueness of generated codes is a precondition. The IntegrityError a collision would
  raise is not modelled.
- Python's Decimal/float type errors are not reproduced. The real code mixes the two types
  at apps/cargo/views.py:147 (`cargo_value * 0.3`) and at apps/payments/utils.py:37 with
  apps/payments/models.py:171 (a float subtracted from a Decimal balance). The model uses
  exact cent arithmetic there and rounds the 30% half-even.
- Freight.Screen: the shortfall is computed exactly. At apps/payments/utils.py:44 the
  source subtracts a Decimal balance from a float amount, which raises TypeError in Python,
  so the refusal with required, available and shortfall is never returned there; the
  catch-all handler turns it into a failure message instead.
- Cargos.ByTime: rows with equal stamps keep their table order (a stable sort). The
  database leaves the order of ties unspecified.
- CBM is an exact real, not a float.
- Two-decimal quantisation of Decimal columns is not modelled.
- The catch-all `except Exception` of apps/payments/utils.py:105-106 is not modelled beyond
  the one exception the model can raise: amount <= 0, which becomes AutoPayFailed. Partial
  writes after an exception, and the lack of locking or transactions, are out. Each request
  is one atomic step.
- Freight.Store.ProcessAutoPayment writes in a different order from the source: the
  settlement rows first, then the relabelling. The final state is what the source's order
  produces.
- Freight.Store.WalletSettle: the relabel guard `if transaction:` always holds in the model,
  because the entry pay_invoice has just appended is the newest matching one.
- Freight.Store.RegisterCargo: serializer validation is an input flag, `valid`. Only the
  status-choice check is modelled. The field mapping of CargoSerializer is not modelled: its
  `customer_id`, `warehouse_id` and `created_by_id` fields. The model takes the customer and
  warehouse as inputs and records the acting user as creator.
- Freight.Store.RegisterCargo records the status as pending in the history row, even when a
  different declared status was supplied. This follows apps/cargo/views.py:65-71.
- Freight.Store.CompleteReleaseOrder records previous status "arrived" whatever the cargo's
  status was. This follows apps/payments/views.py:188-194.
- Freight.Store.UpdateCargoStatus: an explicit JSON null for remarks is not modelled. An
  absent remarks field stores "".
- Freight.Store.Deposit: the default description prints the amount as a two-decimal dollar
  figure. Python prints the value as it was passed in.
- Freight.Store.Withdraw: the default description "Withdrawal of $…" prints the amount as a
  two-decimal dollar figure too, where Python prints the value as it was passed in.
- The auto-payment result message texts are represented by AutoPayOutcome values, not
  strings. The message of a wallet exception is the exception text.
- List, detail, search and pagination handlers are out.
- Authentication, users, customers, warehouses, organizations, notifications, WhatsApp,
  serializers, URL routing and seed data are out. The wallet handlers named in
  apps/payments/urls.py are not part of apps/payments/views.py and are not modelled.
- The `refund` wallet type and the storage_fee, refund and penalty transaction types have
  no operation in the core. They exist only as record values, and refunds count towards the
  balance in the ledger fold.
- Release-order expiry: no code path sets `expired`.
