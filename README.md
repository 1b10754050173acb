# Users controller of the Bubble-Finance ledger API

This project models the users controller of a small ledger API in Dafny and
proves what it promises about the transaction log and about settlement. The
controller lists and reads users, creates users (and logs a seed credit of
1000 USD for each), records deposits, and decides transfers.

The controller does no arithmetic on balances itself. It talks to two
services: the transactions service (`create`: append a record to the
transaction log) and the users service (`create`, `find`, `findOne`,
`checkBalance`, `deposit`, `transfer`). The model keeps one ordered trace of
every call the controller makes:

- `Recorded(t)` is a call of the transactions service with record `t`;
- `Requested(c)` is a call `c` of the users service.

The transaction log is the projection `Log` of the trace onto its records.
The settlements are the projection `Settlements` onto the `deposit` and
`transfer` calls, the calls that move money. The answers the users service
gives are inputs of the model: the id of a newly created user, and the
balance `checkBalance` reports for a transfer's sender.

Files:

- `transactions.dfy`, module `Transactions`: the record (`Tx`, the
  transaction DTO), the transfer and deposit request bodies, the balance test
  and the three record builders (transfer, deposit, seed).
- `users_controller.dfy`, module `Users`: the trace, its two projections, the
  effects of each handler as a function (`Effects`), the replay of a sequence
  of requests (`Serve`) with the lemmas about it, and the class
  `UsersController`. Its methods are the handlers. Each one appends to the
  `effects` field in the order the source makes its calls. The invariant
  `Valid()` says that `effects` is exactly `Serve` of the requests handled so
  far, so every lemma about `Serve` holds of the controller after any session.
  `ControllerGuarantees` states this for the controller's own fields.
  `ExampleSession` is a client of the class: on a controller in any state it
  creates two users and deposits 500 for the first; a transfer of 200 from a
  balance of 1500 is then settled, and a transfer of 2000 from a balance of
  1000 is logged as failed and not settled.

The seed record is named `initialDepositTransaction`
(api/src/users/users.controller.ts:33), but `addUser` never calls the users
service's `deposit`, so `AddUser` requests no settlement. Whether the users
service's `create` credits the new account is not visible in this code.

## Model

| member | source | states |
|---|---|---|
| `Transactions.TransferRecord` | api/src/users/users.controller.ts:67-99 | The logged transfer record copies sender, receiver, both currencies and the rate from the request. Its amount is the requested amount times the rate. It is successful iff the sender's balance is strictly greater than the requested amount before conversion. |
| `Transactions.DepositRecord` | api/src/users/users.controller.ts:51-59 | A deposit record is a successful USD-to-USD self-credit of the deposit's user at rate 1, for the deposited amount. |
| `Transactions.SeedRecord` | api/src/users/users.controller.ts:33-41 | The seed record of a new user is a successful USD-to-USD self-credit of that user at rate 1, for exactly 1000. |
| `Transactions.SeedIsSeedDeposit` | api/src/users/users.controller.ts:33-59 | The seed record is identical to the record a deposit of 1000 for the same user would log. |
| `Transactions.EqualBalanceRejected` | api/src/users/users.controller.ts:75 | A balance equal to the requested amount fails the test, so the record is unsuccessful. |
| `Transactions.OutcomeIgnoresRate` | api/src/users/users.controller.ts:68-83 | Changing the exchange rate never changes whether a transfer succeeds. It only changes the recorded amount, which is the requested amount times the new rate. |
| `Transactions.CheckedAmountIsNotRecordedAmount` | api/src/users/users.controller.ts:68-83 | The test and the record use different amounts. For every request and every balance strictly between the requested amount and its conversion, the transfer succeeds and its record carries more than the sender's balance. |
| `Transactions.CheckedAmountExample` | api/src/users/users.controller.ts:68-83 | An instance: a sender with balance 15 passes the test for 10 at rate 2, and the successful record carries 20. |
| `Users.EffectsProjections` | api/src/users/users.controller.ts:19-102 | What each handler appends. The two reads append no record and no settlement. A creation appends its seed record and no settlement. A deposit appends its record and its own deposit settlement. A transfer appends exactly one record. It also appends the transfer settlement of that same record iff the balance test passes. |
| `Users.EffectsSettleWhatTheyRecord` | api/src/users/users.controller.ts:50-102 | Within each handler, a deposit or transfer settlement comes directly after the record it settles. A transfer is settled only on a successful record. |
| `Users.ServeLogLength` | api/src/users/users.controller.ts:30-102 | After any sequence of requests, the log has exactly one record per creation, deposit and transfer, whatever the outcome of the balance test, and none for reads. |
| `Users.ServeFailuresAreRejections` | api/src/users/users.controller.ts:75-101 | After any sequence of requests, the number of unsuccessful records equals the number of transfers whose sender's balance did not exceed the amount. |
| `Users.ServeSettlesWhatItRecords` | api/src/users/users.controller.ts:50-102 | In the trace of any sequence of requests, every deposit or transfer settlement comes directly after the record it settles. A transfer settlement's record is always a successful one. |
| `Users.QueryIsInert` | api/src/users/users.controller.ts:19-27 | One read (`findUsers` or `findOneUser`) leaves the log and the settlements as they were. |
| `Users.QueriesAreInert` | api/src/users/users.controller.ts:19-27 | Serving any sequence of requests gives the same log and the same settlements as serving it with every read removed. |
| `Users.ControllerGuarantees` | api/src/users/users.controller.ts:30-102 | For any controller whose trace is the replay of the requests it served: one record per creation, deposit and transfer served, one unsuccessful record per rejected transfer, and every settlement directly after its record. |
| `Users.UsersController.constructor` | api/src/users/users.controller.ts:11-15 | A fresh controller has made no calls and has served no requests. |
| `Users.UsersController.FindUsers` | api/src/users/users.controller.ts:19-21 | Adds only a `find` call of the users service. The log and the settlements are unchanged. |
| `Users.UsersController.FindOneUser` | api/src/users/users.controller.ts:25-27 | Adds only a `findOne(id)` call. The log and the settlements are unchanged. |
| `Users.UsersController.AddUser` | api/src/users/users.controller.ts:30-46 | Calls the users service's `create`, then appends the seed record for the id it returned. Nothing is settled. |
| `Users.UsersController.DepositMoney` | api/src/users/users.controller.ts:50-63 | Appends the deposit record, then requests the users service's `deposit` with the same deposit. The log grows by that one record, and the settlements by that one deposit. |
| `Users.UsersController.TransferMoney` | api/src/users/users.controller.ts:67-103 | Asks for the sender's balance in the source currency, then appends the transfer record. It requests the settlement of exactly that record when, and only when, the balance strictly exceeds the requested amount, and reports whether it did. |

## Left out

- Every users-service and transactions-service call is assumed to return. In the source a rejected awaited call ends the handler early: a failed `create` (line 31) logs no seed record, a failed `checkBalance` (line 70) logs no transfer record, and a failed record write in `depositMoney` (line 61) means `deposit` is never requested. The counting lemmas hold for handlers that run to the end.
- The framework plumbing: HTTP routing, decorators, parameter binding and dependency injection.
- The `JwtAuthGuard` authentication guard: its code is not part of this model.
- The internals of the users service (`create`, `find`, `findOne`, `checkBalance`, `deposit`, `transfer`) and of the transactions service's `create`. The model records that the controller calls them and with what arguments. Their results are inputs (the created id, the sender's balance), and how they change balances is not modelled, so no lemma speaks of balance changes.
- The values returned to the HTTP caller (the user list, one user, the results of `deposit` and `transfer`). They come from the users service. `TransferMoney` reports only whether it returned the settlement's result or nothing.
- Users.UsersController.TransferMoney: the source does not await the two `create` calls on the transfer path, so the record may in fact be stored after the settlement starts. The model appends the record before the settlement request, which is a stronger ordering than the code guarantees.
- What the `source_currency` argument of `checkBalance` selects: the users service decides that.
- Floating point: amounts and rates are exact reals, so IEEE rounding of `amount * exchange_rate` is not modelled.
- The fields of the create-user body: they are passed to the users service unread, and are modelled as an opaque string.
