# Paid connections, messages and flirts — a Dafny model

This project models the core of a social back end in which one user pays a fee to open a
private chat with another. The recipient then accepts or declines the request.

A connection moves `PENDING_PAYMENT` → `PAID_PENDING_ACCEPT` → `ACCEPTED` | `DECLINED`:
- When it is created, its fee is split between the platform and the poster by the active
  monetisation configuration.
- Payment writes a transaction row.
- Acceptance writes an earning row for the recipient.
- Messages can be written only inside an accepted connection.

Besides the connection workflow, the model covers flirts ("likes" on a moment). Creating one is
idempotent and raises the moment's `flirt_count`; deleting one lowers it, never below zero.

## How the model is built

- **The database.** It is the datatype `Models.Tables`, with one map per table, keyed by
  identifier, plus a log of emitted notifications. One counter, `clock`, stands for both
  `uuid4()` and `utcnow()`. Each inserted row takes the current value as its identifier and
  creation instant, so ordering by creation time is ordering by identifier.
- **The store invariant.** `Models.Inv` combines three kinds of fact:
  - the table constraints: the unique constraints hold (the connection triple, the
    transaction's link and gateway reference, the earning's link, the flirt pair and the
    configuration name), and messages reference stored connections and flirts stored
    moments (the two foreign keys);
  - flirt counts are non-negative. The column has no CHECK constraint
    (app/models/moment.py:20); the guard of the flirt delete keeps this, as
    `FlirtService.DeleteFlirtKeepsInv` proves;
  - identifiers were issued before the current instant. This is a fact about the model's
    counter, not a table rule.

  A write that would break a unique constraint or the flirt → moment foreign key is refused
  with `Conflict`, and nothing is written.
- **The services** (`TransactionService`, `EarningService`, `ConnectionService`,
  `MessageService`, `FlirtService`) are functions from tables to `Step(db, out)`: the new
  tables and the answer.
- **The endpoints** (`ConnectionsApi`, `MessagesApi`, `FlirtsApi`) are functions that apply
  the guards, map errors to HTTP codes and call the services.
- **The object the services mutate.** `Store.Database` is a class whose fields are the
  tables. Its methods perform the same guards and writes step by step, in place. Each method's
  contract equates the resulting tables and answer with the service function of the same
  name, so every property proved about the functions holds of the methods.
- **The cross-table workflow.** `Workflow.Consistent` says that:
  - every stored fee split is exact;
  - a payment row belongs to a paid connection and was paid by its requester;
  - every connection awaiting acceptance is paid;
  - every earning is the recipient's poster share of a settled, paid connection;
  - every message sits in a settled connection and was written by one of its parties;
  - every flirt count equals the number of flirts on its moment.

  `Workflow.Run` serves any sequence of calls and keeps `Consistent`. The calls are the
  endpoints, the unguarded status overwrites, and both forms of the two endpoints under
  Findings: as written and corrected.

In a few places the code behaves differently from what a reader might expect. The model
follows the code:
- **Guard order on a connection request.** The recipient's existence is checked before the
  self-connection guard.
- **Duplicate detection.** Only a `PENDING_PAYMENT` connection counts as a duplicate, not any
  non-terminal one. When no moment is given, the moment is not compared at all.
- **Marking an already-read message.** It is refused with 400, not treated as a successful
  no-op.
- **Who may mark a message read.** It is the connection's recipient, not "the other party".
  See Findings.
- **Duplicate ledger rows.** A second transaction or earning for the same connection is
  refused by the database's unique constraint (`Conflict`); no service checks for it.

## Model

| member | source | states |
|---|---|---|
| Models.RestatusKeepsUnique | app/models/connection.py:25 | changing a connection's status never makes two connections share (requester, recipient, moment) |
| Query.First | app/services/connection_service.py:27-34 | `.first()`: the lowest identifier satisfying the filter, and none exactly when no identifier in range satisfies it |
| Query.Ascending | app/services/message_service.py:15-16 | exactly the matching identifiers, strictly increasing (oldest first), no more than the range holds |
| Query.Descending | app/services/transaction_service.py:15-16 | exactly the matching identifiers, strictly decreasing (newest first), no more than the range holds |
| Query.Window | app/services/message_service.py:16 | `.offset(skip).limit(limit)`: the run starting at position `skip`, of length min(limit, what is left) |
| Monetisation.Validate | app/schemas/monetisation.py:11-22 | accepted iff the name is at most 50 characters, the base fee is positive, both percentages lie in [0, 1] and they sum to 1; an accepted config is returned unchanged; the first failing check, in field order, gives its reason: a long name, then a non-positive fee, then a percentage outside [0, 1], then a sum other than 1 |
| Monetisation.SplitIsExact | app/schemas/monetisation.py:13-22 | for an admissible config the platform cut and poster share lie between 0 and the fee and add up exactly to the fee |
| TransactionService.CreateTransaction | app/services/transaction_service.py:18-31 | refused with Conflict (nothing written) iff the connection already has a payment row or the gateway reference is taken; otherwise exactly one new row with the given payer, link and status, and amount, currency, method and reference from the request |
| TransactionService.UpdateTransactionStatus | app/services/transaction_service.py:33-43 | unknown id: no row, nothing changes; otherwise the status is set unguarded and the reference is replaced only by a non-empty one; no other field or row changes |
| TransactionService.TransactionsOf | app/services/transaction_service.py:15-16 | exactly the payer's rows, newest first |
| TransactionService.GetTransactionsByUser | app/services/transaction_service.py:15-16 | `.offset(skip).limit(limit)` of `TransactionsOf`: element i is the payer's (skip + i)-th newest row, and the length is min(limit, rows left after skip) |
| TransactionService.CreateTransactionKeepsInv | app/models/transaction.py:17-23 | an insert keeps the store invariant, including unique link and unique reference |
| TransactionService.UpdateTransactionStatusKeepsInv | app/models/transaction.py:23 | a status update keeps the store invariant |
| TransactionService.RewriteKeepsUnique | app/models/transaction.py:17-23 | rewriting a row without changing its link, and with its old reference or an unused one, keeps both columns unique |
| EarningService.CreateEarning | app/services/earning_service.py:17-28 | refused with Conflict iff the connection already has an earning; otherwise exactly one PENDING_PAYOUT row with the given user, connection, amount and currency, nothing paid out |
| EarningService.UpdateEarningStatus | app/services/earning_service.py:30-41 | unknown id: None, nothing changes; any status is set unguarded; PAID_OUT stamps the payout instant and payout transaction, any other status leaves both untouched |
| EarningService.EarningsOf | app/services/earning_service.py:14-15 | exactly the user's earnings, newest first |
| EarningService.GetEarningsByUser | app/services/earning_service.py:14-15 | `.offset(skip).limit(limit)` of `EarningsOf`: element i is the user's (skip + i)-th newest earning, and the length is min(limit, earnings left after skip) |
| EarningService.CreateEarningKeepsInv | app/models/earning.py:15 | an insert keeps the store invariant (one earning per connection) |
| EarningService.UpdateEarningStatusKeepsInv | app/models/earning.py:15 | a status update keeps the store invariant |
| EarningService.RewriteKeepsUnique | app/models/earning.py:15 | rewriting an earning without moving it keeps one earning per connection |
| ConnectionService.GetPendingConnection | app/services/connection_service.py:25-34 | a PENDING_PAYMENT connection between the two users (for the moment, when one is given), and none exactly when no such connection is stored |
| ConnectionService.CalculateConnectionFees | app/services/connection_service.py:36-52 | fails iff no active config has the name; otherwise the split of the active config of that name: (base, base × platform %, base × poster %) |
| ConnectionService.CalculatedSplitIsExact | app/services/connection_service.py:48-52 | with admissible configs a computed split has a positive fee and two non-negative parts that sum exactly to it |
| ConnectionService.CreateConnectionRequest | app/services/connection_service.py:54-90 | guard order: recipient missing, then self-connection; an existing pending duplicate is returned with its stored fee and nothing is written; past those, a missing active config is refused iff there is none, and a triple collision is refused with Conflict iff the stored triple is taken; every refusal writes nothing; otherwise exactly one new PENDING_PAYMENT connection with the computed split, returned with its fee |
| ConnectionService.UpdateConnectionStatus | app/services/connection_service.py:92-104 | None (nothing changes) iff the id is missing or the status is not ACCEPTED, DECLINED or CANCELED; otherwise that status overwrites any current one and nothing else changes |
| ConnectionService.ProcessPaymentAndActivateConnection | app/services/connection_service.py:119-159 | 404 for a missing connection, 400 unless PENDING_PAYMENT; a connection awaiting payment is paid iff it has no payment row and the gateway reference is unused, and is refused with Conflict otherwise; nothing is written on failure; on success exactly one SUCCESS row paid by the requester and linked to the connection, with the client's amount, status PAID_PENDING_ACCEPT, and a CONNECTION_REQUEST notification to a known recipient |
| ConnectionService.HandleRecipientResponse | app/services/connection_service.py:161-217 | 404, then 403 for anyone but the recipient, then 400 unless PAID_PENDING_ACCEPT; past those guards the answer succeeds iff it is DECLINED, or ACCEPTED with no earning yet for the connection (Conflict otherwise); ACCEPTED writes exactly one PENDING_PAYOUT earning of the poster share for the recipient and notifies the requester; DECLINED writes no earning and notifies the requester; any other answer from the recipient of a connection awaiting acceptance is 400 with nothing written; every refusal changes nothing |
| ConnectionService.CreateConnectionRequestKeepsInv | app/models/connection.py:25 | creating a request keeps the store invariant (unique triple) |
| ConnectionService.UpdateConnectionStatusKeepsInv | app/services/connection_service.py:92-104 | the unguarded overwrite keeps the store invariant |
| ConnectionService.ProcessPaymentKeepsInv | app/services/connection_service.py:131-158 | payment keeps the store invariant (one payment row per connection) |
| ConnectionService.HandleRecipientResponseKeepsInv | app/services/connection_service.py:175-217 | the recipient's answer keeps the store invariant (one earning per connection) |
| ConnectionService.RequestIsIdempotent | app/services/connection_service.py:66-69 | asking again with the same parties and moment returns the same connection and fee and writes nothing |
| ConnectionService.SecondPaymentIsRefused | app/services/connection_service.py:128-129 | after a successful payment, a second confirmation is refused with 400 and writes nothing |
| ConnectionService.SecondResponseIsRefused | app/services/connection_service.py:172-173 | after a successful answer, any second answer is refused with 400 and writes nothing |
| ConnectionService.PaymentConflictOnlyOnGatewayReference | app/services/connection_service.py:132-138 | when payment rows exist only for paid connections, a payment can collide only on a reused gateway reference |
| MessageService.CreateMessage | app/services/message_service.py:18-40 | succeeds iff the connection exists, the sender is a party and it is ACCEPTED, failing in that order with nothing written; on success exactly one unread message with that connection, sender and text |
| MessageService.MarkMessageAsRead | app/services/message_service.py:42-50 | an existing unread message becomes read and is returned with no other field changed; a missing or already-read one gives None and changes nothing |
| MessageService.MessagesOf | app/services/message_service.py:15-16 | exactly the connection's messages, oldest first |
| MessageService.GetMessagesByConnection | app/services/message_service.py:15-16 | `.offset(skip).limit(limit)` of `MessagesOf`: element i is the connection's (skip + i)-th oldest message, and the length is min(limit, messages left after skip) |
| MessageService.CreateMessageKeepsInv | app/models/message.py:15 | a new message keeps the store invariant (it references a stored connection) |
| MessageService.MarkMessageAsReadKeepsInv | app/services/message_service.py:42-50 | marking read keeps the store invariant |
| MessageService.MarkingIsNotRepeatable | app/services/message_service.py:43-50 | a second mark of the same message yields None and writes nothing |
| FlirtService.FindFlirt | app/services/flirt_service.py:25-28 | the flirt of that flirter on that moment, and none exactly when no such flirt is stored |
| FlirtService.Bump | app/services/flirt_service.py:41-46 | the moment's count moves by the given amount when the moment exists; no other moment changes |
| FlirtService.CreateFlirt | app/services/flirt_service.py:23-48 | succeeds iff the moment is stored: a flirt on a missing moment breaks the foreign key and is refused with Conflict, nothing written; an existing flirt is returned and nothing changes; otherwise exactly one new flirt, and the moment's count rises by exactly one |
| FlirtService.DeleteFlirt | app/services/flirt_service.py:50-64 | true iff the flirt exists; unknown id changes nothing; otherwise the flirt is removed and its moment's count drops by one only when positive |
| FlirtService.CreateFlirtKeepsInv | app/models/flirt.py:14-17 | creating keeps the store invariant: one flirt per flirter and moment, every flirt on a stored moment, counts non-negative |
| FlirtService.DeleteFlirtKeepsInv | app/services/flirt_service.py:53-63 | deleting keeps the store invariant; in particular no count goes negative |
| FlirtService.CreateFlirtIsIdempotent | app/services/flirt_service.py:25-30 | flirting again with the same moment gives the same answer and writes nothing |
| FlirtService.NewFlirtIsFoundAgain | app/services/flirt_service.py:25-38 | after a new flirt, flirting again returns it and writes nothing |
| FlirtService.CreateFlirtReturnsExisting | app/services/flirt_service.py:29-30 | with a flirt already stored, creation returns it and changes nothing |
| FlirtService.FoundAfterCreate | app/services/flirt_service.py:25-38 | the lookup finds the flirt just created |
| FlirtService.DeleteUndoesCreate | app/services/flirt_service.py:32-63 | deleting a flirt just created restores every table, counts included (only the clock has moved) |
| FlirtService.BumpCancels | app/services/flirt_service.py:43-56 | raising a count and lowering it by the same amount restores the moments |
| FlirtService.LinksAfterWrite | app/models/flirt.py:14 | adding a flirt on a stored moment, or removing one, keeps every flirt on a stored moment |
| FlirtService.CountsAfterInsert | app/services/flirt_service.py:40-46 | with counts equal to the number of flirts, a new flirt plus the increment keeps them equal |
| FlirtService.CountsAfterRemoval | app/services/flirt_service.py:53-59 | with counts equal to the number of flirts, the count to lower is positive, and removal plus the decrement keeps them equal |
| FlirtService.CreateFlirtKeepsCounts | app/services/flirt_service.py:32-46 | creating a flirt keeps every count equal to its number of flirts |
| FlirtService.DeleteFlirtKeepsCounts | app/services/flirt_service.py:53-63 | with exact counts the decrement always finds a positive count, and every count stays exact |
| FlirtsApi.CreateFlirt | app/api/v1/endpoints/flirts.py:15-36 | succeeds iff the moment exists and is not the caller's; 404, then 400, with nothing written; success returns the caller's flirt on that moment |
| FlirtsApi.DeleteFlirt | app/api/v1/endpoints/flirts.py:38-52 | succeeds iff the flirt exists and is the caller's; 404, then 403, with nothing written; success removes it |
| ConnectionsApi.RequestConnection | app/api/v1/endpoints/connections.py:20-37 | writes exactly what the service writes and succeeds iff the service does, returning its connection; a service ValueError becomes 400, and 400 arises exactly from one; Conflict passes through; a refusal writes nothing; success returns the caller's pending connection to the recipient |
| ConnectionsApi.CompleteConnectionPaymentAsWritten | app/api/v1/endpoints/connections.py:39-56 | an amount that is not positive (the `gt=0.0` bound of app/schemas/transaction.py:14) is 422 with nothing written; otherwise the tables are exactly those the service's payment leaves, the answer is 403 exactly when the service succeeded for a connection whose requester is not the caller, and every other answer (404, 400, 409 or success) is the service's own; so success is only for the requester, and a 403 comes only after a PENDING_PAYMENT connection of someone else has been moved to PAID_PENDING_ACCEPT |
| ConnectionsApi.StrangerPaysAnyway | app/api/v1/endpoints/connections.py:50-54 | for a positive amount, a caller who is not the requester gets 403, yet the connection is paid and its payment row is written |
| ConnectionsApi.CompleteConnectionPayment | app/api/v1/endpoints/connections.py:39-56 | 422 for an amount that is not positive (app/schemas/transaction.py:14), then 404, then 403 exactly for a caller who is not the requester, all before any write; for the requester with a positive amount exactly the service's payment |
| ConnectionsApi.CorrectionAgreesForRequester | app/api/v1/endpoints/connections.py:50-56 | for the requester the corrected endpoint answers and writes exactly as the original |
| ConnectionsApi.UpdateConnectionStatus | app/api/v1/endpoints/connections.py:59-79 | a body outside ACCEPTED, DECLINED or CANCELED is 422; otherwise exactly the recipient's answer handled by the service; only the recipient of a connection awaiting acceptance can change anything; CANCELED always fails with nothing written |
| ConnectionsApi.GetConnectionDetails | app/api/v1/endpoints/connections.py:82-96 | the connection iff it exists and the caller is a party; 404, then 403 |
| MessagesApi.OtherParty | app/api/v1/endpoints/messages.py:39 | for a party, the result is a party too, and is not the caller when the two parties differ |
| MessagesApi.CreateMessage | app/api/v1/endpoints/messages.py:16-53 | succeeds iff the text has 1 to 1000 characters (the bounds of app/schemas/message.py:15), the connection exists, the caller is a party and it is ACCEPTED, failing with 422, 404, 403, 400 in that order and nothing written; success stores one unread message and notifies the other party with NEW_MESSAGE |
| MessagesApi.GetMessagesInConnection | app/api/v1/endpoints/messages.py:55-72 | the parties only (404, then 403); the answer is the `skip`/`limit` window of the connection's messages, oldest first: element i is the (skip + i)-th message, at most `limit` (50 unless asked), and all of them for a wide enough window |
| MessagesApi.MarkMessageAsReadAsWritten | app/api/v1/endpoints/messages.py:74-94 | 404 for a missing message; 403 for its sender and for anyone but the connection's recipient; 400 when already read; succeeds iff the caller is the recipient, did not send it and it is unread, and then exactly its read flag changes; a refusal writes nothing |
| MessagesApi.RecipientsMessagesStayUnread | app/api/v1/endpoints/messages.py:85-89 | a message written by the connection's recipient is refused with 403 to every caller |
| MessagesApi.MarkMessageAsRead | app/api/v1/endpoints/messages.py:74-94 | 404 for a missing message; 403 for its sender and for anyone outside the connection; 400 when already read; succeeds iff the caller is a party who did not send it and it is unread, and then exactly its read flag changes |
| MessagesApi.CorrectionKeepsRecipientReads | app/api/v1/endpoints/messages.py:85-93 | wherever the original endpoint lets a reader through, the corrected one answers the same |
| Workflow.NewConnectionLinked | app/services/connection_service.py:77-90 | a new pending connection with an exact split between two users keeps every link |
| Workflow.PaymentLinked | app/services/connection_service.py:131-144 | paying advances the status and adds the requester's payment row without breaking any link |
| Workflow.SettledLinked | app/services/connection_service.py:92-104 | moving a connection to a settled status keeps every link |
| Workflow.EarningLinked | app/services/connection_service.py:177-185 | an earning of the poster share for the recipient of a settled, paid connection keeps every link |
| Workflow.PaymentRewrittenLinked | app/services/transaction_service.py:33-43 | rewriting a payment row without changing its link or payer keeps every link |
| Workflow.EarningRewrittenLinked | app/services/earning_service.py:30-41 | rewriting an earning without changing its link, owner or amount keeps every link |
| Workflow.MessageLinked | app/services/message_service.py:20-40 | a message by a party into a settled connection keeps every link |
| Workflow.MessageReadLinked | app/services/message_service.py:42-50 | flipping a read flag keeps every link |
| Workflow.RequestKeepsConsistent | app/api/v1/endpoints/connections.py:20-37 | a connection request keeps the tables consistent |
| Workflow.PayKeepsConsistent | app/api/v1/endpoints/connections.py:39-56 | the corrected payment confirmation keeps the tables consistent |
| Workflow.PayAsWrittenKeepsConsistent | app/api/v1/endpoints/connections.py:39-56 | the payment confirmation as written keeps the tables consistent, whoever calls it: the row it writes is always the requester's |
| Workflow.RespondKeepsConsistent | app/api/v1/endpoints/connections.py:59-79 | the recipient's answer keeps the tables consistent |
| Workflow.OverwriteKeepsConsistent | app/services/connection_service.py:92-104 | the unguarded status overwrite keeps the tables consistent |
| Workflow.SetPaymentStatusKeepsConsistent | app/services/transaction_service.py:33-43 | a payment status update keeps the tables consistent |
| Workflow.SetEarningStatusKeepsConsistent | app/services/earning_service.py:30-41 | an earning status update keeps the tables consistent |
| Workflow.SendKeepsConsistent | app/api/v1/endpoints/messages.py:16-53 | sending a message keeps the tables consistent |
| Workflow.ReadKeepsConsistent | app/api/v1/endpoints/messages.py:74-94 | the corrected mark-read keeps the tables consistent |
| Workflow.ReadAsWrittenKeepsConsistent | app/api/v1/endpoints/messages.py:74-94 | mark-read as written keeps the tables consistent |
| Workflow.AddFlirtKeepsConsistent | app/api/v1/endpoints/flirts.py:15-36 | flirting keeps the tables consistent, counts included |
| Workflow.RemoveFlirtKeepsConsistent | app/api/v1/endpoints/flirts.py:38-52 | removing a flirt keeps the tables consistent, counts included |
| Workflow.ApplyKeepsConsistent | app/services/connection_service.py:54-217 | every kind of call keeps the tables consistent, the payment and mark-read endpoints as written included |
| Workflow.Run | app/services/connection_service.py:54-217 | any sequence of calls leaves consistent tables, the payment and mark-read endpoints as written included |
| Workflow.InitialIsConsistent | app/models/moment.py:20 | users, moments with no flirts and admissible configs form consistent tables |
| Workflow.ScenarioRequest | app/services/connection_service.py:36-90 | with the standard 10.00 fee split 20/80, a request creates connection 3 with cut 2.00 and share 8.00 |
| Workflow.ScenarioPayment | app/services/connection_service.py:119-159 | paying it writes the 10.00 SUCCESS row and notifies the recipient |
| Workflow.ScenarioNoEarlyMessage | app/api/v1/endpoints/messages.py:31-33 | before acceptance the requester's message is refused with 400 |
| Workflow.ScenarioAcceptance | app/services/connection_service.py:177-196 | accepting writes the 8.00 earning for the recipient and notifies the requester |
| Workflow.ScenarioMessage | app/api/v1/endpoints/messages.py:35-51 | after acceptance the requester's message is stored and the recipient is notified |
| Store.Database.constructor | app/models/moment.py:20 | a database with users, moments and configs and no other rows satisfies the store invariant |
| Store.Database.CreateTransaction | app/services/transaction_service.py:18-31 | the in-place insert leaves exactly the tables and answer of `TransactionService.CreateTransaction`, and keeps the invariant |
| Store.Database.UpdateTransactionStatus | app/services/transaction_service.py:33-43 | the in-place update equals `TransactionService.UpdateTransactionStatus` and keeps the invariant |
| Store.Database.CreateEarning | app/services/earning_service.py:17-28 | the in-place insert equals `EarningService.CreateEarning` and keeps the invariant |
| Store.Database.UpdateEarningStatus | app/services/earning_service.py:30-41 | the in-place update equals `EarningService.UpdateEarningStatus` and keeps the invariant |
| Store.Database.CreateConnectionRequest | app/services/connection_service.py:54-90 | the in-place request equals `ConnectionService.CreateConnectionRequest` and keeps the invariant |
| Store.Database.UpdateConnectionStatus | app/services/connection_service.py:92-104 | the in-place overwrite equals `ConnectionService.UpdateConnectionStatus` and keeps the invariant |
| Store.Database.ProcessPaymentAndActivateConnection | app/services/connection_service.py:119-159 | the in-place payment, which calls the transaction insert, equals `ConnectionService.ProcessPaymentAndActivateConnection` and keeps the invariant |
| Store.Database.HandleRecipientResponse | app/services/connection_service.py:161-217 | the in-place answer, which calls the earning insert, equals `ConnectionService.HandleRecipientResponse` and keeps the invariant |
| Store.Database.CreateMessage | app/services/message_service.py:18-40 | the in-place insert equals `MessageService.CreateMessage` and keeps the invariant |
| Store.Database.MarkMessageAsRead | app/services/message_service.py:42-50 | the in-place flag flip equals `MessageService.MarkMessageAsRead` and keeps the invariant |
| Store.Database.CreateFlirt | app/services/flirt_service.py:23-48 | the in-place lookup, refusal, insert and count increment equal `FlirtService.CreateFlirt` and keep the invariant |
| Store.Database.DeleteFlirt | app/services/flirt_service.py:50-64 | the in-place decrement and removal equal `FlirtService.DeleteFlirt` and keep the invariant |

## Left out

- Amounts are exact reals. The floating-point comparison of the percentage sum with 1.0 and the database's rounding to two decimals are not modelled.
- Timestamps and uuid4 identifiers are one abstract counter. `.first()` without an ordering is taken to mean the lowest identifier.
- Foreign keys other than message → connection and flirt → moment are not part of the store invariant. The deletion cascades are not modelled either, since no core operation deletes a connection or a moment.
- String widths are not modelled: currency (3 characters), status (20), gateway reference (100) and payment method (50).
- Transactions, rollbacks and concurrent requests are not modelled. Each operation is atomic. A unique-constraint violation is modelled as `Conflict` with nothing written, where the original raises `IntegrityError` (a 500) after earlier commits.
- Notifications are (recipient, sender, kind, entity) entries appended to a log. Their title, message text and username interpolation are not modelled.
- The payment notification is written only for a recipient who is a known user. The acceptance, decline and new-message notifications are written unconditionally, as in the original. Users and moments are fixed for the whole run, and no core operation creates them.
- Statuses are closed enumerations of the documented values (`Models.TransactionStatus`, `Models.EarningStatus`). The update functions accept any string (app/services/transaction_service.py:33, app/services/earning_service.py:30), but no caller passes another value.
- Refunds on decline are not modelled. The original only mentions them in a comment.
- The request schema reports all failing fields at once. `Monetisation.Validate` reports the first failing field only, in field order.
- FlirtsApi.CreateFlirt: the 409 branch is not modelled. Under the store invariant the service returns an existing flirt before any insert can collide, and the 404 guard has already found the moment, so the service's foreign-key refusal cannot arise either. Nothing in the model can raise there.
- Several call sites pass an extra database argument or go through a `crud_connection` attribute that does not exist. These are modelled by their evident intent: the pending-connection lookup, the default configuration name `DM_FEE_STANDARD`, the connection lookup, and request creation from the endpoint. The affected lines are app/services/connection_service.py:67, :73, :112, :124 and :165, and the module-level service calls in app/api/v1/endpoints/messages.py and app/api/v1/endpoints/flirts.py.
- Two more call sites are modelled by their evident intent: the payment-row insert at app/services/connection_service.py:132-133 and the earning insert at :180-181. Both call an instance method on the class and pass the session as `self`, so as written `self.db.add` fails with `AttributeError` (app/services/transaction_service.py:28, app/services/earning_service.py:25), and every payment and every acceptance fails. The model performs the insert the call evidently means.
- `initiate_paid_connection` is modelled by `ConnectionsApi.RequestConnection`, which returns the connection's identifier.
- Store.Database.HandleRecipientResponse: it writes the earning before the status change, where the original sets the status first. Both are committed together, so the final tables are the same.
- Store.Database.ProcessPaymentAndActivateConnection: the transaction insert and the status change are one step, not two commits.
- MessagesApi.GetMessagesInConnection, Query.Window and the `Get…ByUser`/`GetMessagesByConnection` listings: negative `skip` or `limit` values are not modelled. The endpoint takes them as plain `int` (app/api/v1/endpoints/messages.py:60) and the services pass them to `.offset`/`.limit` (app/services/message_service.py:16), whose meaning for negative values depends on the database. `Query.Window` and the listings take `nat`.
- `get_connection`, `get_transaction`, `get_earning` and `get_message` are plain map lookups. `get_flirts_by_moment` and `get_flirts_by_user` are not modelled: they are unordered listings outside the workflow.
- The monetisation configuration endpoints, moments, profiles, media, users, authentication and routing are not part of this model.

## Findings

| source | as written | input that shows it | evidently intended | confidence | as-written member | corrected member |
|---|---|---|---|---|---|---|
| app/api/v1/endpoints/connections.py:50-54 | the caller is compared with the requester only after `process_payment_and_activate_connection` has recorded the payment and activated the connection | a PENDING_PAYMENT connection of user 1, confirmed by user 2 with an unused gateway reference: answer 403, yet the connection is PAID_PENDING_ACCEPT and a SUCCESS row exists | 404/403 before any write, so only the requester can pay | not executed | ConnectionsApi.StrangerPaysAnyway | ConnectionsApi.CompleteConnectionPayment |
| app/api/v1/endpoints/messages.py:85-89 | a message may be marked read only by the connection's recipient who did not send it | a message sent by the connection's recipient: its sender is refused, and so is the requester (not the recipient), so it stays unread forever | the reader is the other party: any party who did not send the message | not executed | MessagesApi.RecipientsMessagesStayUnread | MessagesApi.MarkMessageAsRead |
