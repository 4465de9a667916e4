# Payment transactions: a Dafny model

The repository is a payment-transaction service. It stores transactions in Mongo, mirrors them into an
Elastic index, runs payment actions (captures, refunds, cancellations) against payment micros, keeps an
append-only history per transaction, sends statistics messages, and offers lists, reports and exports.

The model follows that structure. Services, controllers and other objects that update their fields are
classes whose methods are tied to a function of the old state; expressions are functions; what the
service promises is proved about those functions, for every input and every run.

| file | content |
|---|---|
| `Money.dfy` | rounding to cents and truncation, on exact reals |
| `Transactions.dfy` | the document and the amounts recomputed from its history |
| `DoubleConverter.dfy` | `pack` / `unpack`, in place on a copied object |
| `ActionPayloads.dfy`, `ActionValidators.dfy` | the shared payload, the fee top-up, the recorded amount, all validators |
| `Worlds.dfy`, `Services.dfy` | store, index and outbox: the functions, and the classes that implement them |
| `DocumentLaws.dfy` | what each entry point leaves behind, field by field |
| `Runs.dfy`, `HistoryRuns.dfy`, `StatisticsRuns.dfy`, `LedgerRuns.dfy` | what every run keeps |
| `ItemLedger.dfy` | captured and refunded quantities |
| `Filters.dfy`, `ElasticCompiler.dfy`, `MongoCompiler.dfy`, `QueryMeaning.dfy`, `QueryAgreement.dfy`, `Searching.dfy` | the two query compilers, what each accepts, and their agreement |
| `Currency.dfy`, `Totals.dfy` | the rate cache and the list totals |
| `DailyReport.dfy`, `Exporter.dfy`, `MonthlyWindow.dfy` | reports, exports, the monthly window |

Conventions. Amounts are exact reals and `Number.EPSILON` is the real 2^-52; binary floating point is not
modelled. A run is a sequence of steps (create, update, migrate, remove, shipping mark, bus messages,
mail and shipping notes, status updates, actions) on any documents; an RPC answer is an arbitrary value, which may
fail at any point, and messages sent are an appended sequence. Number, parseInt, day starts and text matching
of filter values are arbitrary functions shared by both engines.

Where the code does not do what one would expect, the model follows the code and states exactly when it does:

* the index lags behind on the shipping flag, because setting it dispatches no event, exactly until that document is written again (`Runs.ShippingMarkExactlyKeeps`, `Runs.IndexExactUnlessLagging`);
* a redelivered cancellation is announced again, because `&&` binds tighter than `||` (`StatisticsRuns.RedeliveryIsSilent`);
* live and migrated statistics agree only after exactly one entry into ACCEPTED, and a refund entry without amount makes the migrated amount not a number (`StatisticsRuns.LiveAgreesWithMigration`);
* a capture with items is validated on prices and recorded on price times quantity, so it can record too much, the whole total again, or a negative amount; it records a positive amount within the rest exactly when its items fit (`LedgerRuns.ItemsCaptureExactly`, `LedgerRuns.ItemsCanLeaveTheBounds`, `LedgerRuns.ZeroLineRecordsTotal`, `LedgerRuns.NegativeLineRecordsNegative`);
* a payment micro's refund is validated on its amount and then overwritten with payment_return, which is run and recorded unvalidated; it records within the bound exactly when that amount fits by itself (`LedgerRuns.RefundRecordsExactly`, `LedgerRuns.ReturnedAmountBreaksBounds`);
* an action that fails after its answer was applied leaves the answer in the store and no entry in the history (`Services.TransactionActionService.DoAction`);
* actions validated on a document that others have taken from meanwhile can exceed the total; they stay within it exactly when the raw sums with all that is taken do, each rounded once, which for whole cents means that it fits in what is left (`LedgerRuns.OverlappingActionsExactly`, `LedgerRuns.OverlappingInWholeCents`, `LedgerRuns.OverlappingFractionsFit`);
* a total with fractions of a cent advertises a rest it refuses, for captures and for refunds (`ActionValidators.AdvertisedCaptureInGeneral`, `ActionValidators.AdvertisedRefundInGeneral`);
* repeated lines of one identifier are each validated and merged together (`ItemLedger.SaveExactlyWithin`);
* a refund line with a negative quantity is accepted and lets later captures exceed the purchase; captures are safe exactly when no captured item has a negative refunded quantity (`ItemLedger.CaptureSafeExactly`, `ItemLedger.NegativeRefundLetsCapturesExceed`);
* several values mean "all" in Elastic and "any" in Mongo (`QueryAgreement.TextIncluded`), and Mongo includes the end of a date window (`QueryAgreement.DateWindows`);
* `isIn` and `isNotIn` are missing from the Mongo list, so Mongo accepts every document on them; `isIn` agrees everywhere only when it lists nothing, `isNotIn` only on an amount that lists no whole cents (`QueryAgreement.MembershipExactly`);
* `between` cuts its bounds to whole cents in Elastic and reads them with parseInt in Mongo; inclusion and agreement hold exactly under the conditions of `QueryAgreement.BetweenExactly`;
* an empty value list is compiled, and five conditions then accept more in Elastic than in Mongo (`QueryAgreement.EmptyExactly`);
* an export stops after a thousand pages (`Exporter.ExportIsComplete`);
* the last day of the n-th previous month carries over when the months differ in length (`MonthlyWindow.LastIsExact`).

## Model

| member | source | states |
|---|---|---|
| Transactions.RoundedSum | src/transactions/schemas/transaction.schema.ts:96-136 | the filter-and-add loop of the sum virtuals returns the exact sum of the entries of that kind, rounded to cents; an entry without amount counts zero |
| Transactions.LedgersByAction | src/transactions/schemas/transaction.schema.ts:96-136 | refunds and returns add their amount to the refunds, shippings to the captures, cancellations to the cancelled amount, and nothing else does |
| Transactions.StatusNamesDiffer | src/transactions/enum/payment-statuses.enum.ts:1-10 | no two statuses share a stored name |
| Money.RoundingShift | src/transactions/schemas/transaction.schema.ts:122 | rounding commutes with adding whole cents, which is why rounding errors cannot accumulate |
| DoubleConverter.PlainTransaction.PackInPlace | src/transactions/converter/transaction-double.converter.ts:6-34 | the in-place loops convert every money field of the transaction, its items and its history, and change nothing else |
| DoubleConverter.PlainTransaction.UnpackInPlace | src/transactions/converter/transaction-double.converter.ts:36-64 | the same for the way back |
| DoubleConverter.PackedDocument | src/transactions/converter/transaction-double.converter.ts:6-34 | field by field: each amount of the document and its history becomes a hundred times itself, truncated toward zero; the rest stays |
| DoubleConverter.PackedItem | src/transactions/converter/transaction-double.converter.ts:97-126 | each of the seven amounts of an item becomes its own cents; the rest stays |
| DoubleConverter.UnpackedDocument | src/transactions/converter/transaction-double.converter.ts:36-64 | each amount becomes its hundredth |
| DoubleConverter.UnpackedItem | src/transactions/converter/transaction-double.converter.ts:66-95 | each of the seven amounts of an item becomes its own hundredth |
| DoubleConverter.UnpackAfterPack | src/transactions/converter/transaction-double.converter.ts:6-126 | a document read back from the index is the stored one with each amount truncated toward zero by less than a cent and kept when it was whole cents |
| DoubleConverter.WholeCentsRoundTrip | src/transactions/converter/transaction-double.converter.ts:6-126 | on whole-cent documents unpack undoes pack |
| DoubleConverter.PackAfterUnpack | src/transactions/converter/transaction-double.converter.ts:6-126 | on integer-cent documents pack undoes unpack |
| DoubleConverter.PackUnpackPack | src/transactions/converter/transaction-double.converter.ts:6-126 | re-indexing what a search returned changes nothing |
| ActionPayloads.ActionPayload.UpdateAmountFromItems | src/transactions/services/transaction-action.service.ts:210-223 | the loop overwrites the amount of the shared payload with the items total and returns the same object |
| ActionPayloads.ActionPayload.RewriteForCapture | src/transactions/services/transaction-action.service.ts:53-63 | items total, then the fee top-up when the amount is the capture rest without the fees |
| ActionPayloads.ActionPayload.PrepareActionFields | src/transactions/services/messaging.service.ts:386-406 | the shared payload's amount becomes the amount to return (refund, return) or to change to, where one is named, before a payment micro is asked |
| ActionPayloads.ActionPayload.AmountForHistory | src/transactions/event-listeners/send-history-event-after-action.listener.ts:53-92 | the amount recorded: the payload amount, else the amount of the action, else the items, else the total |
| ActionPayloads.RecordedByAction | src/transactions/event-listeners/send-history-event-after-action.listener.ts:53-92 | what a refund, return or cancellation records, read off the payload: the returned amount on a payment micro, else the amount, else that of the action, else what priced items are worth, else the total |
| ActionPayloads.RecordedChange | src/transactions/services/messaging.service.ts:404-406 | what a change of amount records |
| ActionPayloads.ItemsTotalAdds | src/transactions/services/transaction-action.service.ts:210-223 | items are worth price times quantity, line by line |
| ActionPayloads.PriceTotalAdds | src/transactions/event-listeners/validate-amount-matches-items-before-action.listener.ts:36-37 | the compared total is the sum of the prices, and none if one is missing |
| ActionPayloads.TopUpExactly | src/transactions/services/transaction-action.service.ts:53-63 | the top-up fires exactly where what is asked for is the rest less delivery fee and payment fee; any other amount is run and recorded as asked |
| ActionPayloads.ClosingCapture | src/transactions/services/transaction-action.service.ts:53-63 | a capture of everything but the fees, named by amount or by items, runs and records exactly amount_capture_rest and leaves a rest of zero, for any total |
| ActionPayloads.ClosingCaptureExactly | src/transactions/services/transaction-action.service.ts:58-62 | for any payload that asks for a positive rest less the fees: the recorded amount is the rest exactly when it asks for something or the fallback (captured funds, else the total) equals the rest |
| ActionValidators.ValidateAll | src/transactions/services/action-amount-validators/action-amount-validators.collector.ts:12-20 | passes exactly when every validator passes, whatever their order, and otherwise answers the first failure |
| ActionValidators.BeforeAction | src/transactions/event-listeners/validate-amount-before-action.listener.ts:15-37 | the before-action listeners together: which validators run for which action and payload |
| ActionValidators.BeforeActionExactly | src/transactions/event-listeners/validate-amount-before-action.listener.ts:15-37 | exactly which actions pass: amounts within the total and the rounded rest unless validation is skipped, equal to the sum of the prices, and every line accepted; other actions always |
| ActionValidators.LineExactly | src/transactions/services/action-item-validators/validators/action-item-transaction-validator.service.ts:11-32 | a line is accepted exactly when it names a purchased item and asks for no more than was bought, and than is left after refunds and, for captures, captures |
| ActionValidators.FirstOfIdentifier | src/transactions/services/action-item-validators/validators/action-item-capture-validator.service.ts:24-42 | items are looked up by the first of their identifier |
| ActionValidators.AdvertisedCaptureIsAccepted | src/transactions/schemas/transaction.schema.ts:152-157 | over a whole-cent total a positive capture passes all validators exactly when it is at most amount_capture_rest |
| ActionValidators.AdvertisedCaptureInGeneral | src/transactions/services/action-amount-validators/validators/action-amount-capture-validator.service.ts:13-30 | for any total: exactly when it is also at most the total |
| ActionValidators.AdvertisedCaptureCanBeRefused | src/transactions/services/action-amount-validators/validators/action-amount-transaction-validator.service.ts:18-24 | an input on which the advertised rest is refused |
| ActionValidators.RefundAcceptedUpTo | src/transactions/services/action-amount-validators/validators/action-amount-refund-validator.service.ts:13-30 | over a whole-cent total a positive refund passes exactly up to total minus amount_refunded |
| ActionValidators.RefundAcceptedInGeneral | src/transactions/services/action-amount-validators/validators/action-amount-refund-validator.service.ts:13-30 | for any total: a positive refund passes exactly when it is at most the rounded rest of the total and at most the total |
| ActionValidators.AdvertisedRefundIsAccepted | src/transactions/schemas/transaction.schema.ts:141-143 | over a whole-cent amount and total, every positive refund up to amount_refund_rest is accepted exactly when amount is at most total (or nothing is advertised) |
| ActionValidators.AdvertisedRefundInGeneral | src/transactions/schemas/transaction.schema.ts:141-143 | for any document: exactly when nothing is advertised or amount_refund_rest is at most the rounded rest of the total and at most the total |
| ActionValidators.AdvertisedRefundCanBeRefused | src/transactions/services/action-amount-validators/validators/action-amount-transaction-validator.service.ts:18-24 | an input on which the advertised refund rest is refused |
| LedgerRuns.CaptureFits | src/transactions/services/action-amount-validators/validators/action-amount-capture-validator.service.ts:22-29 | one validated capture keeps the ledger in bounds, captures and refunds together within the total |
| LedgerRuns.RefundFits | src/transactions/services/action-amount-validators/validators/action-amount-refund-validator.service.ts:22-29 | one validated refund, or return of that size, keeps the ledger in bounds |
| LedgerRuns.RecordedIsValidated | src/transactions/services/transaction-action.service.ts:53-65 | with the top-up, the amount recorded of a validated capture or refund that payment_return does not overwrite is still positive and within the validated bound |
| LedgerRuns.RefundRecordsExactly | src/transactions/services/messaging.service.ts:386-396 | a validated refund records a positive amount within the bound exactly when it goes to a third party, or names no amount to return, or that amount fits by itself |
| LedgerRuns.ReturnedAmountBreaksBounds | src/transactions/services/messaging.service.ts:386-396 | a refund validated at 10 that runs and records 500 of 100 |
| LedgerRuns.LedgerStaysInBounds | src/transactions/services/action-amount-validators/validators/action-amount-capture-validator.service.ts:22-29 | in every run that keeps the total and whose captures, refunds and returns record a validated amount or name one that fits, raw sums stay below total + 0.01 however many there are, and for a whole-cent total the rounded sums never exceed it |
| LedgerRuns.GatedStepsAreLedgerRun | src/transactions/event-listeners/validate-amount-before-action.listener.ts:15-37 | a run of validated steps that payment_return does not overwrite is such a run, whatever the states in between |
| LedgerRuns.AdvertisedIsAcceptedInRuns | src/transactions/schemas/transaction.schema.ts:141-157 | over a whole-cent total, in every state such a run reaches, what is advertised is what is accepted |
| LedgerRuns.StaleAction | src/transactions/services/transaction-action.service.ts:44-87 | a doAction call validated on a document loaded earlier adds what it takes, payment_return included, to the raw sums of the document stored by then |
| LedgerRuns.OverlappingActionsAdd | src/transactions/services/transaction-action.service.ts:44-87 | any list of actions on a document, each validated on whatever state of it was loaded, adds up: each raw sum grows by all they take |
| LedgerRuns.OverlappingActionsExactly | src/transactions/services/transaction-action.service.ts:44-87 | for any such list and any amounts: captures and refunds together stay within the total exactly when the stored raw sums plus all that is taken, each rounded once, do, and refunds alone likewise |
| LedgerRuns.OverlappingInWholeCents | src/transactions/services/transaction-action.service.ts:44-87 | where whole cents are taken: exactly when all that is taken fits in what the stored document has left |
| LedgerRuns.OverlappingCapturesExceed | src/transactions/services/transaction-action.service.ts:44-87 | two captures of 60 loaded before either is recorded capture 120 of 100 |
| LedgerRuns.OverlappingFractionsFit | src/transactions/schemas/transaction.schema.ts:122 | two captures of 50.002 take more than the 100 that is left and are rounded to it |
| LedgerRuns.ItemsCaptureExactly | src/transactions/services/transaction-action.service.ts:53-63 | a capture with items records a positive amount of at most the rest exactly when: the items are worth something positive within the rest, or take the rest but for the fees of a positive rest, or are worth nothing and the fallback (captured funds, else the total) fits; and exactly then it may be a step of a ledger run |
| LedgerRuns.ItemsCanLeaveTheBounds | src/transactions/event-listeners/validate-amount-matches-items-before-action.listener.ts:33-41 | an accepted payload with items that records more than the total |
| LedgerRuns.ZeroLineRecordsTotal | src/transactions/event-listeners/send-history-event-after-action.listener.ts:53-92 | an accepted line of no pieces that records the total once more |
| LedgerRuns.NegativeLineRecordsNegative | src/transactions/services/transaction-action.service.ts:210-223 | an accepted line of minus one piece that records a negative capture |
| Services.TransactionElasticListener.IndexTransaction | src/transactions/event-listeners/transaction-elastic.listener.ts:47-54 | indexes the packed copy under the document's uuid and leaves the store untouched |
| Services.TransactionsService.Create | src/transactions/services/transactions.service.ts:46-73 | inserts and indexes a new document, or changes nothing when a unique key is taken |
| Services.TransactionsService.UpdateByUuid | src/transactions/services/transactions.service.ts:75-114 | deletes the identifiers of the dto, then updates or inserts under the lock and indexes the result |
| DocumentLaws.CreatedDocument | src/transactions/services/transactions.service.ts:46-73 | the stored document after a creation, every field, or nothing on a taken uuid or original id |
| DocumentLaws.UpdatedDocument | src/transactions/services/transactions.service.ts:75-114 | the stored document after an update, every field |
| DocumentLaws.AnsweredDocument | src/transactions/services/transactions.service.ts:334-416 | the stored document after a payment micro's answer, every field |
| DocumentLaws.ThirdPartyDocument | src/transactions/services/third-party-caller.service.ts:148-170 | the stored document after a third party's answer, every field |
| DocumentLaws.RefreshedDocument | src/transactions/services/transaction-action.service.ts:91-125 | the stored document after a status update, which never touches the items |
| Services.TransactionsService.FindModelByParams | src/transactions/services/transactions.service.ts:150-158 | a newest document that matches the uuid or, where that is empty, the original id, or none when none matches |
| Services.TransactionsService.PushHistoryRecord | src/transactions/services/transactions.service.ts:208-232 | appends one history entry and indexes the result |
| Services.TransactionsService.RemoveByUuid | src/transactions/services/transactions.service.ts:195-206 | removes the document from store and index |
| DocumentLaws.RemovedDocument | src/transactions/services/transactions.service.ts:195-206 | a removed document is in neither store nor index, and no other is touched |
| Services.TransactionsService.SetShippingOrderProcessed | src/transactions/services/transactions.service.ts:234-252 | writes the store only |
| Services.TransactionsService.ApplyRpcResult | src/transactions/services/transactions.service.ts:262-267 | payment properties alone, or a failure on an empty or negative amount |
| Services.TransactionsService.ApplyActionRpcResult | src/transactions/services/transactions.service.ts:254-260 | payment properties, then items; a failure on an empty or negative amount before anything is written, and on missing items between the two |
| Services.StatisticsService.ProcessAcceptedTransaction | src/transactions/services/statistics.service.ts:23-33 | one add message exactly on an entry into ACCEPTED of a stored document |
| Services.StatisticsService.ProcessPaidTransaction | src/transactions/services/statistics.service.ts:35-46 | one paid message exactly on an entry into PAID of a stored document |
| Services.StatisticsService.ProcessRefundedTransactionAfterPaid | src/transactions/services/statistics.service.ts:77-91 | the internal refund message, with the precedence of the source |
| Services.StatisticsService.ProcessRefundedTransaction | src/transactions/services/statistics.service.ts:65-75 | one subtract message for a refund of a stored document |
| Services.StatisticsService.ProcessMigratedTransaction | src/transactions/services/statistics.service.ts:48-63 | the loop adds the amount less the refund entries of a REFUNDED document, not a number when one of them has no amount |
| Services.TransactionEventsController.OnTransactionCreateEvent | src/transactions/controllers/transaction-events.controller.ts:27-39 | creates the converted document |
| Services.TransactionEventsController.OnTransactionRemoveEvent | src/transactions/controllers/transaction-events.controller.ts:71-75 | removes the document from store and index |
| Services.TransactionEventsController.OnTransactionUpdateEvent | src/transactions/controllers/transaction-events.controller.ts:45-65 | statistics against the stored status first, then the update |
| DocumentLaws.UpdateMessages | src/transactions/controllers/transaction-events.controller.ts:45-65 | the one message an update may send, by its status and the stored one |
| Services.MigrateEventsController.OnActionMigrateEvent | src/transactions/controllers/migrate-events.controller.ts:22-61 | create or update, replace the history, announce the final document |
| DocumentLaws.MigratedDocument | src/transactions/controllers/migrate-events.controller.ts:22-61 | when a migration stores the document, and that it then has the history, status, amounts and items of the message |
| DocumentLaws.MigrationMessages | src/transactions/services/statistics.service.ts:48-63 | what a migration announces, by the status, amount and history of the message |
| Services.HistoryEventsController.OnActionCompletedEvent | src/transactions/controllers/history-events.controller.ts:26-61 | the allowed-action gate, the lookup by uuid or original id, the edit gate by payment type, and the dispatch for the document found |
| Services.HistoryEventsController.OnHistoryAddEvent | src/transactions/controllers/history-events.controller.ts:67-98 | the same gate and lookup, pushing without statistics |
| DocumentLaws.BusCompletedExactly | src/transactions/controllers/history-events.controller.ts:26-61 | exactly which completed messages push which entry onto which documents |
| DocumentLaws.BusHistoryExactly | src/transactions/controllers/history-events.controller.ts:67-98 | exactly which history messages push which entry |
| DocumentLaws.LookupFinds | src/transactions/controllers/history-events.controller.ts:35-41 | a uuid finds its document and no other; without one the original id decides |
| Services.CompletedDispatcher.Dispatch | src/transactions/event-listeners/statistics-event.listener.ts:14-20 | a completed action reaches the history and then the statistics |
| Services.TransactionHistoryService.ProcessHistoryRecord | src/transactions/services/transaction-history.service.ts:16-36 | refunds and returns through the refund converter, which keeps no reference |
| DocumentLaws.EntryOfMessage | src/transactions/converter/transaction-history-entry.converter.ts:10-60 | the entry a message becomes |
| Services.TransactionActionService.UpdateFromThirdPartyResult | src/transactions/services/third-party-caller.service.ts:148-170 | of a third-party answer only a status and specific status that are news to the loaded transaction are written |
| Services.TransactionActionService.RunPaymentAction | src/transactions/services/messaging.service.ts:100-150 | the fields of the shared payload are prepared, the answer is applied in two locked updates, and a failing next action leaves it applied |
| Services.TransactionActionService.RunAction | src/transactions/services/third-party-caller.service.ts:79-94 | a payment micro or a third party; a third party is handed the payload as it is and not asked for an action it has no name for |
| Services.TransactionActionService.UpdateStatus | src/transactions/services/transaction-action.service.ts:91-125 | for the payment types that allow it and an unpaid transaction, a payment micro's properties without items, or a third party's statuses, and no entry |
| Services.TransactionActionService.DoAction | src/transactions/services/transaction-action.service.ts:29-89 | validate, rewrite the payload, run, reload, record the payload as it was run; the payload keeps its rewriting when the run fails, and so does the store what an answer brought before a later failure |
| DocumentLaws.RefusedActionChangesNothing | src/transactions/services/transaction-action.service.ts:44-77 | an action whose amount, price sum or any line is refused leaves store, index and messages as they were |
| DocumentLaws.RecordedAction | src/transactions/services/transaction-action.service.ts:65-87 | a recorded action adds one entry with the amount of the payload as it was run, no reference for refunds and returns, and a subtract message for a refund |
| DocumentLaws.UnrecordedAnswer | src/transactions/services/messaging.service.ts:144-150 | an answer after which something fails is applied and not recorded |
| DocumentLaws.UnansweredAction | src/transactions/services/third-party-caller.service.ts:84-86 | which actions never reach anyone and change nothing |
| Services.MailerBusMessagesController.OnPaymentMailSent | src/transactions/controllers/mailer-bus-messages.controller.ts:21-43 | an email_sent entry for a stored document |
| Services.ShippingBusMessagesController.OnShippingOrderProcessed | src/transactions/controllers/shipping-bus-messages.controller.ts:26-39 | the shipping mark, in the store only |
| Services.ShippingBusMessagesController.OnShippingDocumentDownloaded | src/transactions/controllers/shipping-bus-messages.controller.ts:45-85 | an entry for a downloaded label or slip |
| DocumentLaws.NoteExactly | src/transactions/controllers/shipping-bus-messages.controller.ts:45-85 | the entries of mails, labels and slips |
| Runs.IndexMirrorsStore | src/transactions/event-listeners/transaction-elastic.listener.ts:16-54 | in every run without shipping marks the index is exactly the packed store |
| Runs.IndexFollowsStore | src/transactions/event-listeners/transaction-elastic.listener.ts:16-54 | in every run the index differs at most in a shipping flag not yet indexed |
| Runs.ShippingMarkExactlyKeeps | src/transactions/services/transactions.service.ts:234-252 | a shipping mark keeps the index exact exactly when there was nothing to write |
| Runs.IndexExactUnlessLagging | src/transactions/services/transactions.service.ts:234-252 | in every run, a document's index entry is its packed form exactly when the last shipping mark that set its flag, if any, was followed by a write of it |
| Runs.MessagesFindOneDocument | src/transactions/schemas/transaction.schema.ts:13-14 | in every run original ids stay unique, so a message finds at most one document |
| HistoryRuns.AppendOnly | src/transactions/services/transactions.service.ts:75-232 | under any interleaving of locked updates that do not replace it (only a migration does) the history is the initial one followed by the pushes in lock order, and uuid and original_id never change |
| HistoryRuns.ActionIsItsSections | src/transactions/services/transaction-action.service.ts:65-87 | a doAction call is its critical sections, to which the interleaving law applies |
| HistoryRuns.UpdateIsItsSection | src/transactions/converter/transaction.converter.ts:63-67 | an update event is one critical section, which never overwrites the history, so the interleaving law applies to it |
| HistoryRuns.RunExtends | src/transactions/services/transactions.service.ts:208-232 | over whole runs only a removal or a migration takes an entry back or renames a document |
| StatisticsRuns.MessagesFollowEntries | src/transactions/controllers/transaction-events.controller.ts:45-65 | in every run the number of add messages is the number of entries into ACCEPTED by update events plus the number of migrations that announce the document, and the number of paid messages is the number of entries into PAID by update events |
| StatisticsRuns.MovesAreEntries | src/transactions/services/statistics.service.ts:30 | an update event that announces a status the document did not have is one after which it has it |
| StatisticsRuns.InternalRefundsCounted | src/transactions/services/statistics.service.ts:77-91 | in every run the internal refund messages are the updates from PAID to REFUNDED plus the cancellations of the stored document |
| StatisticsRuns.RedeliveryIsSilent | src/transactions/services/statistics.service.ts:77-91 | redelivering an update changes nothing exactly when it is not a cancellation of a stored document |
| StatisticsRuns.RefundsCountedOnce | src/transactions/controllers/history-events.controller.ts:11-73 | in every run that neither removes nor migrates the document, the subtracted amounts are the refund entries its history gained |
| StatisticsRuns.AddedIsAmountPerEntry | src/transactions/services/statistics.service.ts:23-33 | in every run that neither removes nor migrates the document and keeps its amount, it is added once per entry into ACCEPTED |
| StatisticsRuns.PricedSum | src/transactions/services/statistics.service.ts:53-61 | the refunded amount of a migration is a number exactly when every refund entry has an amount, and then their sum |
| StatisticsRuns.LiveAgreesWithMigration | src/transactions/services/statistics.service.ts:48-75 | for a document that keeps its amount and is neither removed nor migrated: a migration of its final REFUNDED state, into any service, sends exactly the live adds minus subtracts if and only if its refund entries had amounts and ACCEPTED was entered once (or the amount is zero) |
| ItemLedger.TransactionModel.SaveItems | src/transactions/services/transactions.service.ts:269-318 | the merge loops: each line is added to the first item of its identifier or pushed |
| ItemLedger.MergeAtIndex | src/transactions/services/transactions.service.ts:270-285 | a merge changes the quantity of the first item of the identifier and nothing else, or pushes the line |
| ItemLedger.TransactionModel.AvailableRefundItems | src/transactions/schemas/transaction.schema.ts:173-199 | the loop lists, in order, the items with something left to refund |
| ItemLedger.MergeAllQuantities | src/transactions/services/transactions.service.ts:300-318 | a merge raises the quantity of every identifier by what the payload names for it and keeps identifiers distinct |
| ItemLedger.RefundedStaysWithin | src/transactions/services/action-item-validators/validators/action-item-refund-validator.service.ts:11-46 | in every run of validated payloads with distinct identifiers the refunded quantity never exceeds the purchased one |
| ItemLedger.CapturedStaysWithin | src/transactions/services/action-item-validators/validators/action-item-capture-validator.service.ts:13-52 | nor does the captured one, in every such run that captures in safe states |
| ItemLedger.CaptureSafeExactly | src/transactions/services/action-item-validators/validators/action-item-capture-validator.service.ts:41-51 | every accepted capture of distinct identifiers stays within the purchase exactly when no captured item has a negative refunded quantity |
| ItemLedger.PlainRefundsAreSafe | src/transactions/services/transactions.service.ts:300-318 | a run without negative refund lines passes through safe states only |
| ItemLedger.NegativeRefundLetsCapturesExceed | src/transactions/services/action-item-validators/validators/action-item-capture-validator.service.ts:41-51 | a refund of minus one piece, then two captures of the one piece bought, each line accepted |
| ItemLedger.SaveExactlyWithin | src/transactions/services/action-item-validators/validators/action-item-refund-validator.service.ts:41-45 | for any accepted capture or refund: exactly when all lines of each identifier together fit |
| ItemLedger.RepeatedLinesExceed | src/transactions/event-listeners/validate-items-before-action.listener.ts:36-38 | a payload of repeated lines that is accepted and exceeds |
| ItemLedger.OfferedPlusRefunded | src/transactions/schemas/transaction.schema.ts:173-199 | in every state a run of payloads with distinct identifiers reaches, available count plus refunded quantity is the purchased quantity |
| ElasticCompiler.Process | src/transactions/tools/double-value-processor.ts:4-21 | every value of a long field is multiplied by 100, object bounds included; others are untouched |
| ElasticCompiler.BoolQuery.AddFilter | src/transactions/services/elastic-search.service.ts:254-285 | the clauses pushed, the early return on a falsy value, and the filters as rewritten in place |
| ElasticCompiler.Compile | src/transactions/services/elastic-search.service.ts:248-252 | the query of all fields, and the list query with its scaled filters |
| MongoCompiler.MongoFilters.ApplyPatterns | src/transactions/mongo-filters/string/contains-condition.filter.ts:10-26 | patterns collected into one clause, none for an empty list |
| MongoCompiler.MongoFilters.AddFilter | src/transactions/services/mongo-search.service.ts:152-178 | the conjuncts pushed, under the same early return |
| MongoCompiler.Compile | src/transactions/services/mongo-search.service.ts:148-150 | the conjunction of all fields |
| QueryMeaning.ComparisonMeaning | src/transactions/elastic-filters/string/greater-then-condition.filter.ts:9-24 | what a comparison with any list of values accepts, in Elastic and in Mongo |
| QueryMeaning.IsMeaning | src/transactions/mongo-filters/string/is-condition.filter.ts:9-19 | is asks for all of the values in Elastic and for one of them in Mongo, isNot for none of them |
| QueryMeaning.PatternMeaning | src/transactions/mongo-filters/string/contains-condition.filter.ts:10-26 | contains, doesNotContain, startsWith and endsWith with any list of values |
| QueryMeaning.IsInMeaning | src/transactions/elastic-filters/string/is-in-condition.filter.ts:8-28 | isIn and isNotIn with any list of values; Mongo accepts every document |
| QueryMeaning.BetweenTexts | src/transactions/elastic-filters/string/between-condition.filter.ts:9-26 | between asks for a number inside every window, read in cents or in units |
| QueryMeaning.DateWindowTexts | src/transactions/elastic-filters/date/between-dates-condition.filter.ts:10-31 | the date windows ask for a date inside every one of them, Mongo with the closing instant |
| QueryMeaning.DayTexts | src/transactions/elastic-filters/date/is-date-condition.filter.ts:10-27 | isDate asks for every day, isNotDate for none |
| QueryMeaning.SingleIsOneOfMany | src/transactions/services/elastic-search.service.ts:271-273 | a value that is no array is wrapped into one |
| QueryMeaning.QueryMeans | src/transactions/services/elastic-search.service.ts:248-285 | a query asks for all filters of all fields, of each field those before its first falsy value |
| QueryMeaning.RewrittenFilters | src/transactions/services/elastic-search.service.ts:267-276 | exactly the filters before the first falsy value are rewritten, each keeping its condition |
| QueryMeaning.RewrittenValues | src/transactions/tools/double-value-processor.ts:4-21 | a rewritten filter holds the array of all its values, times 100 on an amount |
| QueryMeaning.RewrittenWindows | src/transactions/tools/double-value-processor.ts:4-35 | and of all its windows, both bounds |
| QueryAgreement.ComparisonsAgree | src/transactions/elastic-filters/string/greater-then-condition.filter.ts:9-24 | one scaled range per value accepts what one bound from the maximum accepts, for all four comparisons |
| QueryAgreement.BetweenExactly | src/transactions/elastic-filters/string/between-condition.filter.ts:9-26 | for any windows: Elastic stays inside Mongo exactly when its range in cents is empty or inside the one in units, and they agree exactly when the ranges are the same or both empty |
| QueryAgreement.SingleWindowExactly | src/transactions/elastic-filters/string/between-condition.filter.ts:15-16 | for one window: exactly when parseInt keeps of both bounds as many cents once scaled as units before, or it is empty in both |
| QueryAgreement.FractionalBetweenDiffers | src/transactions/mongo-filters/string/between-condition.filter.ts:9-25 | a fractional bound on which the two differ |
| QueryAgreement.DateWindows | src/transactions/mongo-filters/date/between-dates-condition.filter.ts:10-28 | Elastic windows are included in Mongo windows, which differ exactly at the closing instant |
| QueryAgreement.TextIncluded | src/transactions/mongo-filters/string/is-condition.filter.ts:9-19 | is, isNot, contains and their kin: inclusion, and agreement exactly when negative or the values all answer alike |
| QueryAgreement.MembershipMeaning | src/transactions/elastic-filters/string/is-in-condition.filter.ts:8-28 | on isIn and isNotIn Elastic asks for one of the values or for none of them, while Mongo accepts every document |
| QueryAgreement.MembershipExactly | src/transactions/mongo-filters/filters.list.ts:18-35 | isIn agrees everywhere exactly when it lists nothing, isNotIn exactly when it lists something on an amount and no value is whole cents |
| QueryAgreement.EmptyExactly | src/transactions/mongo-filters/string/greater-then-condition.filter.ts:14-22 | with no values, Elastic stays inside Mongo for all conditions but is and the four comparisons, and agrees with it for all but these and isNotIn |
| QueryAgreement.ComparableExactly | src/transactions/services/elastic-search.service.ts:267-284 | a filter keeps Elastic inside Mongo exactly when it has the values its condition needs and its between bounds nest |
| QueryAgreement.CompilersAgree | src/transactions/services/elastic-search.service.ts:254-285 | for any list of such filters, Elastic on packed documents accepts only what Mongo accepts on stored ones, and the same on the agreeing conditions |
| Searching.SearchesAgreeAfterAnyRun | src/transactions/services/mongo-search.service.ts:152-178 | after any run of the service the hits of the index, over amounts, dates, statuses and texts, are hits of the store, and the same hits on the agreeing conditions |
| Searching.SearchedFields | src/transactions/schemas/transaction.schema.ts:12-75 | which field of the document is searched under which name |
| Currency.ExchangeCalculator.GetCurrencyExchangeRate | src/transactions/currency/exchange.calculator.ts:10-21 | the cached lookup, fetching only on a miss |
| Currency.CaseDoesNotMatter | src/transactions/currency/exchange.calculator.ts:10-21 | codes that differ in case only get the same answer, and the service is asked in capitals |
| Currency.RatesAreCoherent | src/transactions/currency/exchange.calculator.ts:10-21 | before a service that returns each known code as its id: in every sequence of lookups each answer is the service's rate or nothing, and a known code is fetched once |
| Currency.FirstAnswerExactly | src/transactions/currency/exchange.calculator.ts:14-17 | a fresh calculator answers a known code exactly when the service returned that code as its id |
| Currency.AnswersExactly | src/transactions/currency/exchange.calculator.ts:10-21 | every answer after every sequence of lookups is the service's rate exactly when the service returns each known code as its id |
| Totals.SingleCurrencyTotals | src/transactions/services/elastic-search.service.ts:120-141 | for totals of any sign the Elastic sum differs from the Mongo sum by less than a cent per document, and is at most it when no total is negative |
| Totals.SingleCurrencyWholeCents | src/transactions/services/elastic-search.service.ts:120-141 | over whole-cent totals the two sums are equal |
| Totals.TotalPerCurrency | src/transactions/services/elastic-search.service.ts:177-188 | the bucket loop computes the sum of the buckets divided by their rates, unknown and zero rates counted as one |
| Totals.ElasticMultiCurrency | src/transactions/services/elastic-search.service.ts:143-194 | the converted and rounded amount over packed buckets |
| Totals.MongoMultiCurrency | src/transactions/services/mongo-search.service.ts:78-120 | the converted and rounded amount over stored buckets |
| Totals.BucketingDoesNotMatter | src/transactions/services/elastic-search.service.ts:177-188 | however documents are bucketed, up to letter case, the loop computes the per-document conversion |
| Totals.MultiCurrencyTotalsAgree | src/transactions/services/elastic-search.service.ts:143-194 | over whole-cent totals both engines arrive at the same amount before the common rounding: the per-document conversion times the target rate |
| Totals.ShownAmount | src/transactions/services/elastic-search.service.ts:190-194 | both engines show the same amount, within half a cent of the per-document conversion times the target rate |
| Totals.OneConverted | src/transactions/services/elastic-search.service.ts:177-188 | a document counts its total over the rate the service has for its currency, or its total where that is none or zero |
| Totals.DivisorInCapitals | src/transactions/services/mongo-search.service.ts:105-120 | the rate of a currency is what the service answers in capitals, or one |
| Totals.SameCurrencyCancels | src/transactions/services/mongo-search.service.ts:105-120 | conversion cancels when every document is in the target currency, and over whole cents the final rounding changes nothing |
| DailyReport.Report.GetDailyReportCurrency | src/transactions/services/daily-report-transactions.service.ts:16-70 | the full outer join per currency |
| DailyReport.Report.GetDailyReportPaymentOption | src/transactions/services/daily-report-transactions.service.ts:72-138 | the full outer join per payment option of each row, which keeps everything else |
| DailyReport.BuildReport | src/transactions/services/daily-report-transactions.service.ts:16-138 | over one snapshot: each currency in one row, each payment type in one option, option totals summing to row totals |
| DailyReport.SumsAdd | src/transactions/services/daily-report-transactions.service.ts:21-29 | the sums count each document once, for its own day, currency and type |
| Exporter.Collect | src/transactions/services/exporter.service.ts:195-217 | the page loop ends for any search and gathers the pages in order, with the longest item list |
| Exporter.ExportIsComplete | src/transactions/services/exporter.service.ts:195-217 | a stable collection is exported whole and in order exactly up to a million documents, and its first million beyond |
| Exporter.GetProductColumns | src/transactions/services/exporter.service.ts:373-381 | seven titled columns per item position, in order |
| Exporter.TableIsRectangular | src/transactions/services/exporter.service.ts:384-420 | header and rows all have 9 + 7 times the longest item list + the columns |
| Exporter.ItemInItsBlock | src/transactions/services/exporter.service.ts:405-410 | every item of every transaction fills its own block of seven cells under its own numbered headings |
| Exporter.RecordCells | src/transactions/services/exporter.service.ts:391-418 | the leading cells, the address (shipping before billing) and the chosen columns of every row, under their headings |
| Exporter.JoinedOptions | src/transactions/services/exporter.service.ts:432-434 | options are joined as name:value, separated by commas |
| Exporter.HeadingNumber | src/transactions/services/exporter.service.ts:41-49 | a heading carries the number of its item, from one |
| Exporter.HeadingsDiffer | src/transactions/services/exporter.service.ts:41-49 | headings of different items or columns differ |
| Exporter.WriteChunks | src/transactions/services/exporter.service.ts:249-257 | chunks of a hundred rows that concatenate back to the table |
| MonthlyWindow.MakeDate | src/transactions/services/export-monthly-business-transaction.service.ts:123-132 | the date setDate and setMonth arrive at lies day - 1 days after the first of the month, carries included |
| MonthlyWindow.MonthLengths | src/transactions/services/export-monthly-business-transaction.service.ts:121-135 | the lengths of the months, February in leap years |
| MonthlyWindow.FourHundredYears | src/transactions/services/export-monthly-business-transaction.service.ts:121-135 | the calendar has 146097 days in 400 years |
| MonthlyWindow.FirstDayOfPreviousNMonth | src/transactions/services/export-monthly-business-transaction.service.ts:121-127 | for every n the first instant of the n-th previous month |
| MonthlyWindow.LastDayOfPreviousNMonth | src/transactions/services/export-monthly-business-transaction.service.ts:129-135 | the last instant of the day the steps arrive at |
| MonthlyWindow.WindowIsPreviousMonth | src/transactions/services/export-monthly-business-transaction.service.ts:121-135 | for n = 1 the window holds exactly the instants of the previous calendar month |
| MonthlyWindow.LastIsExact | src/transactions/services/export-monthly-business-transaction.service.ts:129-135 | for any n the window ends with its month exactly when that month is as long as the previous one |
| MonthlyWindow.WindowsTile | src/transactions/services/export-monthly-business-transaction.service.ts:121-135 | one window ends a millisecond before the next begins |

## Left out

- Services.TransactionActionService.DoAction: the encoding of uploaded file urls is not part of it; a document that a third-party status inserts anew has default values (see UpdateByUuid).
- Services.TransactionsService.UpdateByUuid: an inserted document has default values where the source leaves fields missing.
- LedgerRuns.LedgerStaysInBounds: serial runs only, because validation and push are not under one lock (`LedgerRuns.OverlappingActionsExactly` says when overlapping actions keep the bounds); updates that change the total, and actions whose recorded amount is neither validated nor fits, are outside its steps, since nothing then bounds what is taken.
- ElasticCompiler.Compile: the channel_set_uuid field, the free-text search boxes and the RangeError of an empty date list are not modelled.
- ElasticCompiler.BoolQuery.AddFilter: the branch of channel_set_uuid, which matches the first element of the value, is not modelled.
- MongoCompiler.Compile: the channel_set_uuid field and the free-text search boxes are not modelled.
- MongoCompiler.MongoFilters.AddFilter: the branch of channel_set_uuid, which sets the value outside $and, is not modelled.
- QueryAgreement.CompilersAgree: a field holds one value, and a range on a value of another kind matches nothing in either engine; dates on amounts and empty date windows are not compared.
- Searching.SearchesAgreeAfterAnyRun: fields of cart items hold several values and are not in the view.
- Exporter.TableIsRectangular: date formats of the PDF export are not modelled; cells are the named values.
- MonthlyWindow.LastDayOfPreviousNMonth: now is a local civil date; the offset between local time and UTC is not modelled.
- Currency.ExchangeCalculator.GetCurrencyExchangeRate: upper-casing covers the letters a to z.
- Binary floating point: amounts are exact reals, so `===` and `Math.trunc(x * 100)` are exact here.
- Elastic text analysis, regular expressions, the bucket limit and the delay of index removals.
- The folders plugin listener and its amount_left and total_left fields: the same loops over other fields.
- The refund_items of a history entry, mail events, uploads and users: copied values.
- RabbitMQ, RPC, HTTP, websockets, notifications and Redis: an RPC answer is an arbitrary value, a message is an appended one.
- Fake example actions, the seller-name update and updateTransactionByUuid: they dispatch no update event.
- The item-merge calls after an action are commented out in the source, so quantities are proved at service level.
- The es-fix-diff and es-business-check commands, DTO classes, mail converters, output mapping and sample data.
- Services.ShippingBusMessagesController.OnShippingDocumentDownloaded: the lookup by shipping_order_id is not modelled; the step names the transaction it finds.
- QueryAgreement.BetweenExactly: filter values are numbers where a number is asked for, and scaled ones are below 1e21 and not tiny fractions, so that parseInt reads their whole part.
- Listeners that run after a recorded action (the update sent to checkout) may fail without undoing anything.
