# Building management: wallet and payment ledger

A model of the stateful core of a Django building-management application:
the per-user `Wallet` with its `deposit` and `withdraw` operations, the
payments table whose `receipt_number` column is unique, and the three
record-changing request handlers the model covers (`activate_service`,
`verify_manager`, `pay_subscription`). Money is an integer number of cents.

Modules, one per component:

- `Wrappers` (wrappers.dfy): the `Option` type.
- `Records` (records.dfy): the records that `building/app/models.py` defines and
  the core touches (`Subscription`, `Payment`, `Service`, `BuildingManager`,
  `ServiceRequest`, `IssueReport`), the defaults new records get, the two status
  enumerations with the codes stored in the database, and the range of a
  `DecimalField(max_digits=10, decimal_places=2)`.
- `Wallets` (wallets.dfy): the `Wallet` class, whose methods update `balance` in
  place, specified by the functions `Deposited` and `Withdrawn`; the round trips
  between the two operations.
- `Payments` (payments.dfy): the uniqueness constraint on receipt numbers, the
  insert the database performs (`Insert`), and the `PaymentLedger` class whose
  `Create` appends a row or refuses a duplicate receipt.
- `Views` (views.py handlers): each handler as a step function on a snapshot
  `Db` of the tables it writes, `Handle` dispatching a `Request`, `Replay` for a
  sequence of requests, the relation `Evolves` that every sequence of requests
  respects, and the `Store` class whose methods update the tables in place and
  are proved to agree with `Handle`.

`pay_bill` creates a `BillPayment` without the required `payment_ino` link and
creates no `Payment` (building/app/views.py:119-124, building/app/models.py:128),
so it is not a ledger step (see below).
`activate_service` does not check the request method, so it activates a service
on any request; `verify_manager` looks the manager up before it checks for a
POST, so an unknown manager is a 404 even on a GET. `pay_subscription` records
the payment for the requesting user, who need not be the subscription's user.

## Model

| member | source | states |
|---|---|---|
| Records.NewService | building/app/models.py:68-86 | a newly defined service is not active |
| Records.NewBuildingManager | building/app/models.py:50-54 | a new manager profile is neither verified nor approved by an administrator |
| Records.ServiceRequestStatus.Code | building/app/models.py:95-105 | every service-request status is stored as a non-empty code that fits the 50-character column |
| Records.ParseServiceRequestStatus | building/app/models.py:95-105 | reading a code back is the inverse of `Code`: it succeeds exactly on the four choices and returns the status with that code |
| Records.NewServiceRequest | building/app/models.py:94-106 | a new service request is stored with status code "pending" |
| Records.IssueReportStatus.Code | building/app/models.py:201-210 | every issue-report status is stored as a non-empty code that fits the 50-character column |
| Records.ParseIssueReportStatus | building/app/models.py:201-210 | reading a code back is the inverse of `Code`: it succeeds exactly on open, in_progress and resolved |
| Records.NewIssueReport | building/app/models.py:200-212 | a new issue report is stored with status code "open" and no notes |
| Wallets.Withdrawn | building/app/models.py:143-148 | a successful withdrawal never leaves a negative balance, and a failed one leaves the balance unchanged |
| Wallets.DepositThenWithdraw | building/app/models.py:139-148 | depositing an amount and withdrawing it again succeeds exactly when the starting balance is non-negative, and then restores it |
| Wallets.WithdrawThenDeposit | building/app/models.py:139-148 | a successful withdrawal is undone by depositing the same amount |
| Wallets.WithdrawStaysInColumn | building/app/models.py:136-147 | withdrawing a non-negative amount from a balance that fits the decimal column keeps it in the column |
| Wallets.Wallet.constructor | building/app/models.py:134-137 | a new wallet has balance 0 and is not locked |
| Wallets.Wallet.Deposit | building/app/models.py:139-141 | agrees with the specification function `Deposited`; the balance becomes exactly old balance plus the amount, whatever its sign; the lock flag and the user are untouched |
| Wallets.Wallet.Withdraw | building/app/models.py:143-148 | succeeds exactly when the balance covers the amount, then subtracts it leaving a non-negative balance; otherwise the balance is unchanged; the lock flag and the user are untouched |
| Payments.UniqueAfterAppend | building/app/models.py:123 | appending a payment keeps receipt numbers unique exactly when they were unique and its receipt is unused |
| Payments.Insert | building/app/models.py:119-124 | an insert into a valid table is accepted exactly when the uniqueness constraint still holds afterwards, and then appends the row |
| Payments.PaymentLedger.constructor | building/app/models.py:119-124 | a table is built from rows that satisfy the uniqueness constraint |
| Payments.PaymentLedger.Create | building/app/models.py:123 | a duplicate receipt is refused and leaves the table unchanged; otherwise the payment is appended; uniqueness is preserved |
| Views.Handle | building/app/views.py:26-111 | dispatches to the handler models `ActivateServiceStep`, `VerifyManagerStep` and `PaySubscriptionStep`, whose behaviour is stated through this contract and the lemmas below; any response other than success leaves every table unchanged; every request is an evolution of the tables and keeps receipts unique |
| Views.ReplayEvolves | building/app/views.py:26-111 | after any sequence of requests, payments were only appended, each for some subscription's amount, services and managers only gained their flags, and receipts are still unique |
| Views.PaySubscriptionRecordsPayment | building/app/views.py:99-111 | with a known subscription and an unused receipt, exactly one payment is appended, with the subscription's amount and the requester as user, and nothing else changes |
| Views.PaySubscriptionDuplicateReceipt | building/app/views.py:104-109 | with a receipt already in use, paying fails and adds nothing |
| Views.PaySameSubscriptionTwice | building/app/views.py:99-111 | paying one subscription twice under two fresh receipts succeeds twice and leaves two separate payments |
| Views.ActivateServiceIdempotent | building/app/views.py:89-94 | activating a known service sets only its flag, touches no other service or table, and repeating it changes nothing |
| Views.VerifyManagerKeepsApproval | building/app/views.py:26-33 | a POST sets `verified` on that manager only and keeps its user, building and administrator approval |
| Views.Store.ActivateService | building/app/views.py:89-94 | agrees with `Handle`, hence with `ActivateServiceStep`; sets the flag of a known service, answers 404 for an unknown one, writes only the services table |
| Views.Store.VerifyManager | building/app/views.py:26-33 | agrees with `Handle`, hence with `VerifyManagerStep`; only a POST for a known manager sets `verified`, writes only the managers table |
| Views.Store.PaySubscription | building/app/views.py:99-111 | agrees with `Handle`, hence with `PaySubscriptionStep`; succeeds exactly on a POST for a known subscription with an unused receipt, then appends that one payment; changes no subscription and no wallet |

## Left out

- Authentication, login, logout, sign-up, manager registration, permission decorators, forms, templates and HTTP responses (building/app/views.py:12-64): framework I/O. A response is an enumerated value; a GET is a flag on the request.
- Reading and converting form fields (an absent or non-numeric `subscription_id`, an absent `receipt_number`): the request carries typed values.
- `charge_wallet`: it parses the amount as a floating-point number before depositing it; the model has `Wallet.Deposit` on cents instead. The store holds wallets only so that `pay_subscription` can be shown not to touch them.
- `pay_bill`: it creates a `BillPayment` without the one-to-one `payment_ino` link the record requires and creates no `Payment`, so the database refuses it; it is not a ledger step, and no `BillPayment` is modelled.
- `define_service`, `report_issue` and the engagement records (announcements, reminders, messages, notifications, surveys, FAQ, contracts, business owners, management transfers): plain record creation; only the defaults of `Service` and `IssueReport` are kept.
- Timestamps (`auto_now`, `auto_now_add`), `save()`, auto-incremented ids (a payment's id is its position), cascading deletes.
- Column widths enforced by the database backend: a receipt longer than 100 characters, or a balance that a deposit pushes past 10^10 - 1 cents, is refused by some backends and stored by others; the model stores it. `Wallets.Wallet.Deposit` therefore states no bound on the new balance.
- Sub-cent amounts and decimal rounding: amounts are whole cents.
- Concurrency: the model serves requests one at a time. Two concurrent `deposit`/`withdraw` calls on one wallet can lose an update (building/app/models.py:139-148); this is not modelled.
- Wallets.Wallet.Deposit: does not model the `TypeError` of mixing `float` and `Decimal`. The field default `0.0` is a float until the row is read back, after which `balance` is a `Decimal`; `self.balance += amount` raises `TypeError` whenever one side is a float and the other a `Decimal`. The only caller, `charge_wallet`, passes a float to a wallet loaded from the database, so every deposit it makes fails that way. The model treats every amount as exact cents, so `Deposit` never fails.
- Wallets.Wallet.Withdraw: does not model the same `TypeError`, which `self.balance -= amount` raises whenever one side is a float and the other a `Decimal` (the `>=` guard compares the two without error). No handler calls `withdraw`.
- Status columns hold arbitrary text in the database: `choices=` on `ServiceRequest.status` and `IssueReport.status` is checked only by form and model validation, not by `save()` or `objects.create`. So a stored row may hold a code that is none of the choices. The model keeps only valid statuses; `Records.ParseServiceRequestStatus` and `Records.ParseIssueReportStatus` return `None` for any other code.
- The `is_locked` flag is kept on `Wallet` and neither operation reads it, as in the code.
