/**
  The services that update the store, the index and the outbox in place.  Every method is tied to
  the function in Worlds that says what it does to the whole state.
*/
module Services {
  import opened ActionPayloads
  import opened ActionValidators
  import opened DoubleConverter
  import opened Transactions
  import opened Worlds
  import opened Wrappers

  /** The document collection, the search index and the message exchange. */
  class Backend {
    var store: map<string, Transaction>
    var index: map<string, Transaction>
    var outbox: seq<Event>

    constructor ()
      ensures Now() == World(map[], map[], [])
    {
      store, index, outbox := map[], map[], [];
    }

    function Now(): World
      reads this
    {
      World(store, index, outbox)
    }

    method Send(event: Event)
      modifies this`outbox
      ensures outbox == old(outbox) + [event]
    {
      outbox := outbox + [event];
    }
  }

  class TransactionElasticListener {
    const backend: Backend

    constructor (backend: Backend)
      ensures this.backend == backend
    {
      this.backend := backend;
    }

    /** Packs a fresh copy, so the document that was just stored keeps its decimals. */
    method IndexTransaction(transaction: Transaction)
      modifies backend`index
      ensures backend.Now() == Indexed(old(backend.Now()), transaction)
    {
      var copy := new PlainTransaction(transaction);
      copy.PackInPlace();
      backend.index := backend.index[copy.doc.uuid := copy.doc];
    }

    method TransactionDeleted(uuid: string)
      modifies backend`index
      ensures backend.index == old(backend.index) - {uuid}
    {
      backend.index := backend.index - {uuid};
    }
  }

  /** A dto object: create and updateByUuid rewrite its identifiers. */
  class TransactionDto {
    var value: Dto

    constructor (value: Dto)
      ensures this.value == value
    {
      this.value := value;
    }
  }

  class TransactionsService {
    const backend: Backend
    const elastic: TransactionElasticListener

    ghost predicate Valid() {
      elastic.backend == backend
    }

    constructor (backend: Backend)
      ensures Valid() && this.backend == backend
    {
      var listener := new TransactionElasticListener(backend);
      this.backend, this.elastic := backend, listener;
    }

    method InsertDocument(uuid: string, originalId: Option<string>, dto: Dto) returns (created: bool)
      requires Valid()
      modifies backend
      ensures backend.Now() == Insert(old(backend.Now()), uuid, originalId, dto)
      ensures created == Insertable(old(backend.store), uuid, originalId)
    {
      created := Insertable(backend.store, uuid, originalId);
      if created {
        var t := Apply(Blank(uuid, originalId), SetFields(dto));
        backend.store := backend.store[uuid := t];
        elastic.IndexTransaction(t);
      }
    }

    method Create(dto: TransactionDto, freshUuid: string) returns (created: bool)
      requires Valid()
      modifies backend, dto
      ensures backend.Now() == Worlds.Create(old(backend.Now()), old(dto.value), freshUuid)
      ensures created == Insertable(old(backend.store), old(dto.value).uuid.GetOr(freshUuid), old(dto.value).id)
    {
      if dto.value.uuid.None? {
        dto.value := dto.value.(uuid := Some(freshUuid));
      }
      created := InsertDocument(dto.value.uuid.value, dto.value.id, dto.value);
    }

    /** findOneAndUpdate under the lock of this uuid, then the updated event. */
    method ModifyDocument(uuid: string, change: Change) returns (found: bool)
      requires Valid()
      modifies backend
      ensures backend.Now() == Modify(old(backend.Now()), uuid, change)
      ensures found == (uuid in old(backend.store))
    {
      found := uuid in backend.store;
      if found {
        var updated := Apply(backend.store[uuid], change);
        backend.store := backend.store[uuid := updated];
        elastic.IndexTransaction(updated);
      }
    }

    method UpdateByUuid(uuid: string, dto: TransactionDto) returns (ok: bool)
      requires Valid()
      modifies backend, dto
      ensures backend.Now() == Worlds.UpdateByUuid(old(backend.Now()), uuid, old(dto.value))
      ensures dto.value == WithoutIdentifiers(old(dto.value))
      ensures ok == (uuid in backend.store)
    {
      var insertOriginalId := dto.value.id;
      dto.value := dto.value.(id := None);
      dto.value := dto.value.(uuid := None);
      if uuid in backend.store {
        ok := ModifyDocument(uuid, SetFields(dto.value));
      } else {
        ok := InsertDocument(uuid, insertOriginalId, dto.value);
      }
    }

    /** find, newest first, limit 1. */
    method FindModelByParams(params: PaymentRef) returns (found: Option<string>)
      ensures found.None? ==> Missing(backend.store, params)
      ensures found.Some? ==> FoundBy(backend.store, params, found.value)
    {
      found := None;
      var rest := backend.store.Keys;
      while rest != {}
        invariant rest <= backend.store.Keys
        invariant found.None? ==> forall v | v in backend.store && v !in rest :: !Matches(v, backend.store[v], params)
        invariant found.Some? ==>
                    && found.value in backend.store
                    && Matches(found.value, backend.store[found.value], params)
                    && forall v | v in backend.store && v !in rest && Matches(v, backend.store[v], params) ::
                         NotOlder(backend.store[found.value], backend.store[v])
      {
        var u :| u in rest;
        rest := rest - {u};
        if Matches(u, backend.store[u], params)
           && (found.None? || NotOlder(backend.store[u], backend.store[found.value]))
        {
          found := Some(u);
        }
      }
    }

    method PushHistoryRecord(uuid: string, entry: HistoryEntry) returns (ok: bool)
      requires Valid()
      modifies backend
      ensures backend.Now() == Modify(old(backend.Now()), uuid, PushHistory(entry))
    {
      ok := ModifyDocument(uuid, PushHistory(entry));
    }

    method SetShippingOrderProcessed(uuid: string)
      modifies backend`store
      ensures backend.Now() == MarkShipped(old(backend.Now()), uuid)
    {
      if uuid in backend.store {
        backend.store := backend.store[uuid := Apply(backend.store[uuid], SetShippingProcessed)];
      }
    }

    method RemoveByUuid(uuid: string)
      requires Valid()
      modifies backend
      ensures backend.Now() == Worlds.RemoveByUuid(old(backend.Now()), uuid)
    {
      if uuid in backend.store {
        backend.store := backend.store - {uuid};
        elastic.TransactionDeleted(uuid);
      }
    }

    /** The payment properties alone, which throws on an empty or negative amount. */
    method ApplyRpcResult(uuid: string, rpc: RpcOutcome) returns (ok: bool)
      requires Valid() && rpc.PaymentResult?
      modifies backend
      ensures ok == (Usable(rpc) && uuid in old(backend.store))
      ensures backend.Now() ==
              if Usable(rpc) then
                Modify(old(backend.Now()), uuid,
                       SetPayment(rpc.amount.value, rpc.deliveryFee, rpc.status, rpc.specificStatus))
              else old(backend.Now())
    {
      if rpc.amount.None? || rpc.amount.value <= 0.0 {
        return false;
      }
      ok := ModifyDocument(uuid, SetPayment(rpc.amount.value, rpc.deliveryFee, rpc.status, rpc.specificStatus));
    }

    /** Payment properties, then items, each under its own lock. */
    method ApplyActionRpcResult(uuid: string, rpc: RpcOutcome) returns (ok: bool)
      requires Valid() && rpc.PaymentResult?
      modifies backend
      ensures ok == (Usable(rpc) && rpc.items.Some? && uuid in old(backend.store))
      ensures backend.Now() ==
              if !Usable(rpc) then old(backend.Now())
              else
                var w1 := Modify(old(backend.Now()), uuid,
                                 SetPayment(rpc.amount.value, rpc.deliveryFee, rpc.status, rpc.specificStatus));
                if rpc.items.Some? then Modify(w1, uuid, SetItems(rpc.items.value)) else w1
    {
      ok := ApplyRpcResult(uuid, rpc);
      if ok {
        ok := rpc.items.Some?;
        if ok {
          ok := ModifyDocument(uuid, SetItems(rpc.items.value));
        }
      }
    }
  }

  class StatisticsService {
    const backend: Backend

    constructor (backend: Backend)
      ensures this.backend == backend
    {
      this.backend := backend;
    }

    method ProcessAcceptedTransaction(id: string, updating: Checkout)
      modifies backend`outbox
      ensures backend.outbox == old(backend.outbox) + AcceptedEvents(backend.store, id, updating)
    {
      if id !in backend.store {
        return;
      }
      if backend.store[id].status != updating.status && updating.status == Accepted {
        backend.Send(AddEvent(updating.uuid, Some(updating.amount)));
      }
    }

    method ProcessPaidTransaction(id: string, updating: Checkout)
      modifies backend`outbox
      ensures backend.outbox == old(backend.outbox) + PaidEvents(backend.store, id, updating)
    {
      if id !in backend.store {
        return;
      }
      if backend.store[id].status != updating.status && updating.status == Paid {
        backend.Send(PaidEvent(updating.uuid, updating.amount));
      }
    }

    method ProcessRefundedTransactionAfterPaid(id: string, updating: Checkout)
      modifies backend`outbox
      ensures backend.outbox == old(backend.outbox) + RefundAfterPaidEvents(backend.store, id, updating)
    {
      if id !in backend.store {
        return;
      }
      if (backend.store[id].status == Paid && updating.status == Refunded) || updating.status == Cancelled {
        backend.Send(InternalRefundEvent(updating.uuid));
      }
    }

    method ProcessRefundedTransaction(id: string, refund: Message)
      modifies backend`outbox
      ensures backend.outbox == old(backend.outbox) + SubtractEvents(backend.store, id, refund)
    {
      if id in backend.store && refund.action == Refund {
        backend.Send(SubtractEvent(backend.store[id].uuid, refund.amount));
      }
    }

    method ProcessMigratedTransaction(transaction: Transaction)
      modifies backend`outbox
      ensures backend.outbox == old(backend.outbox) + MigratedEvents(transaction)
    {
      if transaction.status == Accepted || transaction.status == Paid {
        backend.Send(AddEvent(transaction.uuid, Some(transaction.amount)));
      }
      if transaction.status == Refunded {
        var refundedAmount := Some(0.0);
        var history := transaction.history;
        for i := 0 to |history|
          invariant refundedAmount == RefundedNumber(history[..i])
          invariant backend.outbox == old(backend.outbox)
        {
          assert history[..i + 1][..i] == history[..i];
          if history[i].action == Refund {
            var amount := history[i].amount;
            refundedAmount := if refundedAmount.Some? && amount.Some? then Some(refundedAmount.value + amount.value) else None;
          }
        }
        assert history[..|history|] == history;
        backend.Send(AddEvent(transaction.uuid, Less(transaction.amount, refundedAmount)));
      }
    }
  }

  class TransactionEventsController {
    const transactions: TransactionsService
    const statistics: StatisticsService

    ghost predicate Valid() {
      transactions.Valid() && statistics.backend == transactions.backend
    }

    constructor (transactions: TransactionsService, statistics: StatisticsService)
      requires transactions.Valid() && statistics.backend == transactions.backend
      ensures Valid() && this.transactions == transactions && this.statistics == statistics
    {
      this.transactions, this.statistics := transactions, statistics;
    }

    method OnTransactionCreateEvent(c: Checkout)
      requires Valid()
      modifies transactions.backend
      ensures transactions.backend.Now() == OnCreate(old(transactions.backend.Now()), c)
    {
      var dto := new TransactionDto(FromCheckout(c));
      var _ := transactions.Create(dto, c.uuid);
    }

    method OnTransactionUpdateEvent(c: Checkout)
      requires Valid()
      modifies transactions.backend
      ensures transactions.backend.Now() == OnUpdate(old(transactions.backend.Now()), c)
    {
      ghost var before := transactions.backend.Now();
      var dto := new TransactionDto(FromCheckout(c));
      statistics.ProcessAcceptedTransaction(c.uuid, c);
      if c.status == Paid {
        statistics.ProcessPaidTransaction(c.uuid, c);
      }
      if c.status == Refunded || c.status == Cancelled {
        statistics.ProcessRefundedTransactionAfterPaid(c.uuid, c);
      }
      assert transactions.backend.outbox == before.outbox + UpdateEvents(before, c);
      var _ := transactions.UpdateByUuid(c.uuid, dto);
    }

    method OnTransactionRemoveEvent(uuid: string)
      requires Valid()
      modifies transactions.backend
      ensures transactions.backend.Now() == Worlds.RemoveByUuid(old(transactions.backend.Now()), uuid)
    {
      transactions.RemoveByUuid(uuid);
    }
  }

  class MigrateEventsController {
    const transactions: TransactionsService
    const statistics: StatisticsService

    ghost predicate Valid() {
      transactions.Valid() && statistics.backend == transactions.backend
    }

    constructor (transactions: TransactionsService, statistics: StatisticsService)
      requires transactions.Valid() && statistics.backend == transactions.backend
      ensures Valid() && this.transactions == transactions && this.statistics == statistics
    {
      this.transactions, this.statistics := transactions, statistics;
    }

    method OnActionMigrateEvent(c: Checkout)
      requires Valid()
      modifies transactions.backend
      ensures transactions.backend.Now() == OnMigrate(old(transactions.backend.Now()), c)
    {
      var dto := new TransactionDto(FromCheckout(c));
      if c.uuid in transactions.backend.store {
        var _ := transactions.UpdateByUuid(c.uuid, dto);
      } else {
        var _ := transactions.Create(dto, c.uuid);
      }
      var found := transactions.ModifyDocument(c.uuid, SetHistory(c.history));
      if found {
        statistics.ProcessMigratedTransaction(transactions.backend.store[c.uuid]);
      }
    }
  }

  class TransactionHistoryService {
    const transactions: TransactionsService

    constructor (transactions: TransactionsService)
      ensures this.transactions == transactions
    {
      this.transactions := transactions;
    }

    method ProcessHistoryRecord(uuid: string, m: Message)
      requires transactions.Valid()
      modifies transactions.backend
      ensures transactions.backend.Now() == Modify(old(transactions.backend.Now()), uuid, PushHistory(ToEntry(m)))
    {
      var entry: HistoryEntry;
      match m.action {
        case Refund => entry := HistoryEntry(m.action, m.amount, None);
        case Return => entry := HistoryEntry(m.action, m.amount, None);
        case _ => entry := HistoryEntry(m.action, m.amount, m.reference);
      }
      var _ := transactions.PushHistoryRecord(uuid, entry);
    }
  }

  /** The completed event reaches the history listener and then the statistics listener. */
  class CompletedDispatcher {
    const history: TransactionHistoryService
    const statistics: StatisticsService
    const backend: Backend

    ghost predicate Valid() {
      && history.transactions.Valid()
      && history.transactions.backend == backend && statistics.backend == backend
    }

    constructor (history: TransactionHistoryService, statistics: StatisticsService)
      requires history.transactions.Valid() && statistics.backend == history.transactions.backend
      ensures Valid() && this.history == history && this.statistics == statistics && backend == statistics.backend
    {
      this.history, this.statistics, this.backend := history, statistics, statistics.backend;
    }

    method Dispatch(uuid: string, m: Message)
      requires Valid()
      modifies backend
      ensures backend.Now() == OnCompleted(old(backend.Now()), uuid, m)
    {
      history.ProcessHistoryRecord(uuid, m);
      statistics.ProcessRefundedTransaction(uuid, m);
    }
  }

  class HistoryEventsController {
    const history: TransactionHistoryService
    const dispatcher: CompletedDispatcher
    const backend: Backend

    ghost predicate Valid() {
      dispatcher.Valid() && dispatcher.backend == backend && dispatcher.history == history
    }

    constructor (dispatcher: CompletedDispatcher)
      requires dispatcher.Valid()
      ensures Valid() && this.dispatcher == dispatcher && backend == dispatcher.backend
    {
      this.history, this.dispatcher, this.backend := dispatcher.history, dispatcher, dispatcher.backend;
    }

    method OnActionCompletedEvent(payment: PaymentRef, m: Message)
      requires Valid()
      modifies backend
      ensures !AllowedFromBus(m.action) || Missing(old(backend.store), payment) ==> backend.Now() == old(backend.Now())
      ensures AllowedFromBus(m.action) && !Missing(old(backend.store), payment) ==>
                exists u :: FoundBy(old(backend.store), payment, u) && backend.Now() == OnBusCompleted(old(backend.Now()), u, m)
    {
      if !AllowedFromBus(m.action) {
        return;
      }
      var found := history.transactions.FindModelByParams(payment);
      if found.None? {
        return;
      }
      if m.action == Edit && backend.store[found.value].paymentType != SANTANDER_POS_DE {
        return;
      }
      dispatcher.Dispatch(found.value, m);
    }

    method OnHistoryAddEvent(payment: PaymentRef, m: Message)
      requires Valid()
      modifies backend
      ensures !AllowedFromBus(m.action) || Missing(old(backend.store), payment) ==> backend.Now() == old(backend.Now())
      ensures AllowedFromBus(m.action) && !Missing(old(backend.store), payment) ==>
                exists u :: FoundBy(old(backend.store), payment, u) && backend.Now() == OnBusHistory(old(backend.Now()), u, m)
    {
      if !AllowedFromBus(m.action) {
        return;
      }
      var found := history.transactions.FindModelByParams(payment);
      if found.Some? {
        history.ProcessHistoryRecord(found.value, m);
      }
    }
  }

  class TransactionActionService {
    const transactions: TransactionsService
    const dispatcher: CompletedDispatcher
    const amountValidators: seq<AmountValidator>

    ghost predicate Valid() {
      && dispatcher.Valid() && dispatcher.history.transactions == transactions
      && Complete(amountValidators)
    }

    constructor (dispatcher: CompletedDispatcher, amountValidators: seq<AmountValidator>)
      requires dispatcher.Valid() && Complete(amountValidators)
      ensures Valid() && this.dispatcher == dispatcher && transactions == dispatcher.history.transactions
    {
      this.dispatcher, this.amountValidators := dispatcher, amountValidators;
      this.transactions := dispatcher.history.transactions;
    }

    /** Writes the statuses that are news to the loaded transaction, if any. */
    method UpdateFromThirdPartyResult(transaction: Transaction, newStatus: Option<Status>,
                                      newSpecificStatus: Option<string>) returns (ok: bool)
      requires Valid()
      modifies transactions.backend
      ensures transactions.backend.Now() ==
              OnRpcResult(old(transactions.backend.Now()), transaction, ThirdPartyResult(newStatus, newSpecificStatus))
      ensures transaction.uuid in transactions.backend.store ==> ok
    {
      var updateData := StatusDto(None, None);
      if newStatus.Some? && newStatus.value != transaction.status {
        updateData := updateData.(status := newStatus);
      }
      if newSpecificStatus.Some? && newSpecificStatus != transaction.specificStatus {
        updateData := updateData.(specificStatus := newSpecificStatus);
      }
      assert updateData == ThirdPartyUpdate(transaction, newStatus, newSpecificStatus);
      ok := true;
      if updateData != StatusDto(None, None) {
        var dto := new TransactionDto(updateData);
        ok := transactions.UpdateByUuid(transaction.uuid, dto);
      }
    }

    /** The messaging service prepares the fields of the shared payload, sends them and applies the answer. */
    method RunPaymentAction(transaction: Transaction, payload: ActionPayload, action: Action, rpc: RpcOutcome)
      returns (ok: bool)
      requires Valid() && !rpc.ThirdPartyResult?
      modifies transactions.backend, payload
      ensures payload.fields == if Prepares(rpc) then Prepared(old(payload.fields), action) else old(payload.fields)
      ensures transactions.backend.Now() ==
              if Answered(action, old(payload.fields), rpc) then OnRpcResult(old(transactions.backend.Now()), transaction, rpc)
              else old(transactions.backend.Now())
      ensures ok == (Answered(action, old(payload.fields), rpc) && Completes(rpc)
                     && transaction.uuid in old(transactions.backend.store))
    {
      var refused := action == Capture && payload.fields.None?;
      if Prepares(rpc) {
        payload.PrepareActionFields(action);
      }
      if rpc.RpcFailed? || refused {
        return false;
      }
      ok := transactions.ApplyActionRpcResult(transaction.uuid, rpc);
      ok := ok && !rpc.nextActionFails;
    }

    /** The action caller: what comes back is applied to the stored document. */
    method RunAction(transaction: Transaction, payload: ActionPayload, action: Action, rpc: RpcOutcome)
      returns (ok: bool)
      requires Valid()
      modifies transactions.backend, payload
      ensures payload.fields == if Prepares(rpc) then Prepared(old(payload.fields), action) else old(payload.fields)
      ensures transactions.backend.Now() ==
              if Answered(action, old(payload.fields), rpc) then OnRpcResult(old(transactions.backend.Now()), transaction, rpc)
              else old(transactions.backend.Now())
      ensures ok ==> Answered(action, old(payload.fields), rpc) && Completes(rpc)
      ensures (Answered(action, old(payload.fields), rpc) && Completes(rpc)
               && transaction.uuid in transactions.backend.store) ==> ok
    {
      if rpc.ThirdPartyResult? {
        ok := SupportedByThirdParty(action);
        if ok {
          ok := UpdateFromThirdPartyResult(transaction, rpc.newStatus, rpc.newSpecificStatus);
        }
      } else {
        ok := RunPaymentAction(transaction, payload, action, rpc);
      }
    }

    /** updateStatus: nothing is recorded, and a payment micro's items are not applied. */
    method UpdateStatus(transaction: Transaction, rpc: RpcOutcome) returns (ok: bool)
      requires Valid()
      modifies transactions.backend
      ensures transactions.backend.Now() == OnRefresh(old(transactions.backend.Now()), transaction, rpc)
    {
      if transaction.paymentType !in STATUS_UPDATE_TYPES || transaction.status == Paid {
        return true;
      }
      match rpc {
        case RpcFailed(_) => ok := false;
        case ThirdPartyResult(newStatus, newSpecificStatus) =>
          ok := UpdateFromThirdPartyResult(transaction, newStatus, newSpecificStatus);
        case PaymentResult(_, _, _, _, _, _) =>
          if transaction.status == New {
            return true;
          }
          ok := transactions.ApplyRpcResult(transaction.uuid, rpc);
      }
    }

    /** The after-action event: the reloaded document and the rewritten payload make the message. */
    method RecordAction(uuid: string, payload: ActionPayload, action: Action)
      requires Valid() && uuid in transactions.backend.store
      modifies transactions.backend
      ensures transactions.backend.Now() ==
              OnCompleted(old(transactions.backend.Now()), uuid,
                          ActionMessage(old(transactions.backend.store)[uuid], action, payload.fields))
    {
      var reloaded := transactions.backend.store[uuid];
      var amount := payload.AmountForHistory(reloaded, action);
      var reference := if payload.fields.Some? then payload.fields.value.reference else None;
      dispatcher.Dispatch(uuid, Message(action, Some(amount), reference));
    }

    /** Run the action, reload the document and record what the payload now says. */
    method RunAndRecord(transaction: Transaction, payload: ActionPayload, action: Action, rpc: RpcOutcome)
      returns (ok: bool)
      requires Valid()
      modifies transactions.backend, payload
      ensures payload.fields == if Prepares(rpc) then Prepared(old(payload.fields), action) else old(payload.fields)
      ensures var w, w1 := old(transactions.backend.Now()), OnRpcResult(old(transactions.backend.Now()), transaction, rpc);
              && ok == (Answered(action, old(payload.fields), rpc) && Completes(rpc) && transaction.uuid in w1.store)
              && transactions.backend.Now() ==
                 if ok then OnCompleted(w1, transaction.uuid,
                                        ActionMessage(w1.store[transaction.uuid], action, payload.fields))
                 else if Answered(action, old(payload.fields), rpc) then w1 else w
    {
      ok := RunAction(transaction, payload, action, rpc);
      ok := ok && transaction.uuid in transactions.backend.store;
      if ok {
        RecordAction(transaction.uuid, payload, action);
      }
    }

    /**
      Validate, rewrite the shared payload, run, record.  runAmount is the amount the payment was
      asked to run; the payload keeps its rewriting even when the run fails, and so does the store what
      an answer brought before a later failure.
    */
    method DoAction(transaction: Transaction, payload: ActionPayload, action: Action, skipValidation: bool,
                    rpc: RpcOutcome)
      returns (ok: bool, runAmount: Option<real>)
      requires Valid()
      modifies transactions.backend, payload
      ensures transactions.backend.Now() ==
              Worlds.DoAction(old(transactions.backend.Now()), transaction, old(payload.fields), action, skipValidation, rpc)
      ensures ok == ActionRuns(old(transactions.backend.Now()), transaction, old(payload.fields), action,
                               skipValidation, rpc)
      ensures var passes := BeforeActionPasses(transaction, old(payload.fields), action, skipValidation);
              && payload.fields == (if passes then RunFields(transaction, old(payload.fields), action, Prepares(rpc))
                                    else old(payload.fields))
              && runAmount == (if passes then AmountOf(payload.fields) else None)
    {
      ok := BeforeAction(amountValidators, transaction, payload.fields, action, skipValidation);
      if !ok {
        runAmount := None;
        return;
      }
      if action == ShippingGoods {
        payload.RewriteForCapture(transaction);
      }
      assert payload.fields == Rewritten(transaction, old(payload.fields), action);
      ok := RunAndRecord(transaction, payload, action, rpc);
      assert payload.fields == RunFields(transaction, old(payload.fields), action, Prepares(rpc));
      runAmount := AmountOf(payload.fields);
    }
  }

  class MailerBusMessagesController {
    const history: TransactionHistoryService

    constructor (history: TransactionHistoryService)
      ensures this.history == history
    {
      this.history := history;
    }

    method OnPaymentMailSent(uuid: string)
      requires history.transactions.Valid()
      modifies history.transactions.backend
      ensures history.transactions.backend.Now() == OnNote(old(history.transactions.backend.Now()), uuid, EmailSent)
    {
      if uuid in history.transactions.backend.store {
        history.ProcessHistoryRecord(uuid, NoteMessage(EmailSent));
      }
    }
  }

  class ShippingBusMessagesController {
    const history: TransactionHistoryService

    constructor (history: TransactionHistoryService)
      ensures this.history == history
    {
      this.history := history;
    }

    method OnShippingOrderProcessed(uuid: string)
      modifies history.transactions.backend`store
      ensures history.transactions.backend.Now() == MarkShipped(old(history.transactions.backend.Now()), uuid)
    {
      history.transactions.SetShippingOrderProcessed(uuid);
    }

    /** A label or a slip of the shipping order of this transaction. */
    method OnShippingDocumentDownloaded(uuid: string, note: Note)
      requires history.transactions.Valid()
      modifies history.transactions.backend
      ensures history.transactions.backend.Now() == OnNote(old(history.transactions.backend.Now()), uuid, note)
    {
      if uuid in history.transactions.backend.store {
        history.ProcessHistoryRecord(uuid, NoteMessage(note));
      }
    }
  }
}
