/**
  What each entry point leaves behind, spelled out: the stored document field by field, the entry it
  gets, and the messages that are sent.
*/
module DocumentLaws {
  import opened ActionPayloads
  import opened ActionValidators
  import opened HistoryRuns
  import opened Money
  import opened Runs
  import opened StatisticsRuns
  import opened Transactions
  import opened Worlds
  import opened Wrappers

  /** An announced field where it is there, else the stored one. */
  function OrStored<T>(announced: Option<T>, stored: Option<T>): Option<T> {
    if announced.Some? then announced else stored
  }

  /** A new document, if neither its uuid nor its original id is taken; else nothing. */
  lemma CreatedDocument(w: World, c: Checkout)
    ensures OnCreate(w, c).outbox == w.outbox
    ensures if c.uuid !in w.store && (forall u | u in w.store :: w.store[u].originalId != c.id)
            then OnCreate(w, c).store == w.store[c.uuid :=
                   Transaction(c.uuid, c.id, c.amount, c.total, c.currency, c.paymentType, c.status, c.specificStatus,
                               Some(c.createdAt), c.deliveryFee, c.downPayment, c.paymentFee, false, c.items, [], [], [])]
            else OnCreate(w, c).store == w.store
  {
  }

  /** An update writes what checkout announces and leaves what it does not. */
  lemma UpdatedDocument(w: World, c: Checkout)
    requires c.uuid in w.store
    ensures var t := w.store[c.uuid];
            OnUpdate(w, c).store == w.store[c.uuid := t.(
              amount := c.amount, total := c.total, currency := c.currency, paymentType := c.paymentType,
              status := c.status, specificStatus := OrStored(c.specificStatus, t.specificStatus),
              createdAt := Some(c.createdAt), deliveryFee := OrStored(c.deliveryFee, t.deliveryFee),
              downPayment := OrStored(c.downPayment, t.downPayment), paymentFee := OrStored(c.paymentFee, t.paymentFee),
              items := c.items)]
  {
  }

  /** An update of an unknown document creates it and sends nothing. */
  lemma UpdateOfUnknown(w: World, c: Checkout)
    requires c.uuid !in w.store
    ensures OnUpdate(w, c).store == OnCreate(w, c).store && OnUpdate(w, c).outbox == w.outbox
  {
    assert w.outbox + [] == w.outbox;
  }

  /** The one message an update of a stored document may send. */
  lemma UpdateMessages(w: World, c: Checkout)
    requires c.uuid in w.store
    ensures var stored := w.store[c.uuid].status;
            OnUpdate(w, c).outbox == w.outbox +
              if c.status == Accepted then (if stored == Accepted then [] else [AddEvent(c.uuid, Some(c.amount))])
              else if c.status == Paid then (if stored == Paid then [] else [PaidEvent(c.uuid, c.amount)])
              else if c.status == Cancelled || (c.status == Refunded && stored == Paid) then [InternalRefundEvent(c.uuid)]
              else []
  {
    var sent := w.(outbox := w.outbox + UpdateEvents(w, c));
    assert OnUpdate(w, c) == UpdateByUuid(sent, c.uuid, FromCheckout(c));
    assert OnUpdate(w, c).outbox == w.outbox + UpdateEvents(w, c);
  }

  /** Where a migration ends: the document with what checkout announces, history included. */
  lemma MigratedDocument(w: World, c: Checkout)
    ensures c.uuid in OnMigrate(w, c).store <==>
            c.uuid in w.store || forall u | u in w.store :: w.store[u].originalId != c.id
    ensures c.uuid in OnMigrate(w, c).store ==>
              OnMigrate(w, c).store == (if c.uuid in w.store then OnUpdate(w, c).store else OnCreate(w, c).store)[
                                         c.uuid := OnMigrate(w, c).store[c.uuid]]
    ensures c.uuid in OnMigrate(w, c).store ==>
              var t := OnMigrate(w, c).store[c.uuid];
              && t.history == c.history && t.status == c.status && t.amount == c.amount && t.total == c.total
              && t.items == c.items && t.currency == c.currency && t.paymentType == c.paymentType
              && t.createdAt == Some(c.createdAt)
  {
  }

  /** Every refund entry carries its amount. */
  predicate RefundsPriced(history: seq<HistoryEntry>) {
    forall e | e in history :: e.action == Refund ==> e.amount.Some?
  }

  /** What a migration announces: the amount, less the refunds of a REFUNDED document; not a number if one has none. */
  lemma MigrationMessages(w: World, c: Checkout)
    requires WellKeyed(w.store)
    ensures OnMigrate(w, c).outbox == w.outbox +
              if c.uuid !in OnMigrate(w, c).store then []
              else if c.status == Accepted || c.status == Paid then [AddEvent(c.uuid, Some(c.amount))]
              else if c.status != Refunded then []
              else if RefundsPriced(c.history)
                   then [AddEvent(c.uuid, Some(c.amount - SumOf(RefundActions, c.history)))]
              else [AddEvent(c.uuid, None)]
  {
    MigrationSends(w, c);
    if c.uuid in OnMigrate(w, c).store {
      MigratedState(w, c);
      AnnouncedDocument(OnMigrate(w, c).store[c.uuid]);
      assert Sent(w, MigrateStep(c)) == MigratedEvents(OnMigrate(w, c).store[c.uuid]);
    } else {
      assert Sent(w, MigrateStep(c)) == [];
    }
  }

  /** What is announced of a migrated document. */
  lemma AnnouncedDocument(t: Transaction)
    ensures MigratedEvents(t) ==
            if t.status == Accepted || t.status == Paid then [AddEvent(t.uuid, Some(t.amount))]
            else if t.status != Refunded then []
            else if RefundsPriced(t.history) then [AddEvent(t.uuid, Some(t.amount - SumOf(RefundActions, t.history)))]
            else [AddEvent(t.uuid, None)]
  {
    PricedSum(t.history);
  }

  lemma RemovedDocument(w: World, uuid: string)
    ensures var w' := RemoveByUuid(w, uuid);
            && uuid !in w'.store && w'.outbox == w.outbox
            && (w.index.Keys == w.store.Keys ==> uuid !in w'.index)
            && forall u | u != uuid ::
                 && (u in w'.store <==> u in w.store) && (u in w.store ==> w'.store[u] == w.store[u])
  {
  }

  lemma ShippedDocument(w: World, uuid: string)
    ensures MarkShipped(w, uuid) ==
            if uuid in w.store then w.(store := w.store[uuid := w.store[uuid].(shippingProcessed := true)]) else w
  {
  }

  /** A payment micro's answer: amount, fee and both statuses, then the items if they came. */
  lemma AnsweredDocument(w: World, t: Transaction, rpc: RpcOutcome)
    requires rpc.PaymentResult? && t.uuid in w.store
    ensures var s := w.store[t.uuid];
            var w' := OnRpcResult(w, t, rpc);
            && w'.outbox == w.outbox
            && if rpc.amount.None? || rpc.amount.value <= 0.0 then w'.store == w.store
               else w'.store == w.store[t.uuid := s.(
                      amount := rpc.amount.value, deliveryFee := rpc.deliveryFee, status := rpc.status,
                      specificStatus := rpc.specificStatus,
                      items := if rpc.items.Some? then rpc.items.value else s.items)]
  {
  }

  /** A third party's answer: the statuses that differ from those of the loaded transaction. */
  lemma ThirdPartyDocument(w: World, t: Transaction, rpc: RpcOutcome)
    requires rpc.ThirdPartyResult? && t.uuid in w.store
    ensures var s := w.store[t.uuid];
            var w' := OnRpcResult(w, t, rpc);
            && w'.outbox == w.outbox
            && w'.store == w.store[t.uuid := s.(
                 status := if rpc.newStatus.Some? && rpc.newStatus.value != t.status then rpc.newStatus.value else s.status,
                 specificStatus := if rpc.newSpecificStatus.Some? && rpc.newSpecificStatus != t.specificStatus
                                   then rpc.newSpecificStatus else s.specificStatus)]
  {
    var s := w.store[t.uuid];
    var update := ThirdPartyUpdate(t, rpc.newStatus, rpc.newSpecificStatus);
    if update == StatusDto(None, None) {
      assert w.store[t.uuid := s] == w.store;
    }
  }

  /** A status update leaves the items, and does nothing for paid transactions and types that have none. */
  lemma RefreshedDocument(w: World, t: Transaction, rpc: RpcOutcome)
    requires t.uuid in w.store && rpc.PaymentResult?
    ensures var s := w.store[t.uuid];
            var w' := OnRefresh(w, t, rpc);
            w'.store ==
              if t.status == Paid || t.status == New || t.paymentType !in STATUS_UPDATE_TYPES
                 || rpc.amount.None? || rpc.amount.value <= 0.0
              then w.store
              else w.store[t.uuid := s.(amount := rpc.amount.value, deliveryFee := rpc.deliveryFee,
                                        status := rpc.status, specificStatus := rpc.specificStatus)]
  {
  }

  // ---- actions ----

  /** What a refused action leaves: nothing changed, whichever check refused it. */
  lemma RefusedActionChangesNothing(w: World, t: Transaction, f: Fields, lines: seq<CartItem>, action: Action, skip: bool,
                                    rpc: RpcOutcome)
    requires action in {Refund, ShippingGoods}
    requires lines == if f.paymentItems.Some? then f.paymentItems.value else []
    requires var a := f.amount.GetOr(0.0);
             || (a != 0.0 && !skip && !(0.0 < a <= t.total))
             || (a != 0.0 && !skip && action == ShippingGoods
                 && a > RoundMoney(t.total - AmountCaptured(t) - AmountRefunded(t)))
             || (a != 0.0 && !skip && action == Refund && a > RoundMoney(t.total - AmountRefunded(t)))
             || (a != 0.0 && lines != [] && PriceTotal(lines) != Some(a))
             || (exists line | line in lines :: RefusedLine(t, line, action))
    ensures DoAction(w, t, Some(f), action, skip, rpc) == w
  {
    BeforeActionExactly(t, f, lines, action, skip);
    if line :| line in lines && RefusedLine(t, line, action) {
      LineExactly(t, line, action);
    }
  }

  /** An unnamed or unknown item, more than was bought, or more than is left of it. */
  predicate RefusedLine(t: Transaction, line: CartItem, action: Action) {
    var bought, refunded := QuantityOf(t.items, line.identifier), QuantityOf(t.refundedItems, line.identifier);
    || line.identifier == ""
    || (forall k :: 0 <= k < |t.items| ==> t.items[k].identifier != line.identifier)
    || line.quantity > bought
    || (action == Refund && line.quantity > bought - refunded)
    || (action == ShippingGoods && line.quantity > bought - refunded - QuantityOf(t.capturedItems, line.identifier))
  }

  /**
    What a recorded action leaves: one more entry with the amount of the payload as it was run, without
    the reference for refunds and returns, and a subtract message for a refund.
  */
  lemma RecordedAction(w: World, t: Transaction, fields: Option<Fields>, action: Action, skip: bool, rpc: RpcOutcome)
    requires t.uuid in w.store && WellKeyed(w.store)
    requires BeforeActionPasses(t, fields, action, skip) && Answered(action, fields, rpc)
    requires rpc.PaymentResult? ==> rpc.items.Some? && !rpc.nextActionFails
    ensures var w1, w' := OnRpcResult(w, t, rpc), DoAction(w, t, fields, action, skip, rpc);
            && t.uuid in w1.store
            && var s := w1.store[t.uuid];
            var amount := RecordedAmount(s, action, RunFields(t, fields, action, rpc.PaymentResult?));
            var reference := if action in {Refund, Return} || fields.None? then None else fields.value.reference;
            && w'.store == w1.store[t.uuid := s.(history := s.history + [HistoryEntry(action, Some(amount), reference)])]
            && w'.outbox == w.outbox + if action == Refund then [SubtractEvent(t.uuid, Some(amount))] else []
  {
    RpcKeepsHistory(w, t, rpc, t.uuid);
    var w1 := OnRpcResult(w, t, rpc);
    var m := MessageAfter(w1, t, fields, action, rpc);
    ReferenceKept(t, fields, action, rpc.PaymentResult?);
    CompletedDocument(w1, t.uuid, m);
    assert DoAction(w, t, fields, action, skip, rpc) == OnCompleted(w1, t.uuid, m);
  }

  lemma ReferenceKept(t: Transaction, fields: Option<Fields>, action: Action, prepared: bool)
    ensures var run := RunFields(t, fields, action, prepared);
            run.Some? == fields.Some? && (run.Some? ==> run.value.reference == fields.value.reference)
  {
  }

  /** A completed action: its entry, and a subtract message for a refund. */
  lemma CompletedDocument(w: World, uuid: string, m: Message)
    requires uuid in w.store && w.store[uuid].uuid == uuid
    ensures var w' := OnCompleted(w, uuid, m);
            && w'.store == Pushed(w, uuid, HistoryEntry(m.action, m.amount,
                                                        if m.action in {Refund, Return} then None else m.reference))
            && w'.outbox == w.outbox + if m.action == Refund then [SubtractEvent(uuid, m.amount)] else []
  {
  }

  /** An answer after which something fails is applied and not recorded. */
  lemma UnrecordedAnswer(w: World, t: Transaction, fields: Option<Fields>, action: Action, skip: bool, rpc: RpcOutcome)
    requires BeforeActionPasses(t, fields, action, skip) && rpc.PaymentResult? && Answered(action, fields, rpc)
    requires rpc.items.None? || rpc.nextActionFails
    ensures DoAction(w, t, fields, action, skip, rpc) == OnRpcResult(w, t, rpc)
  {
  }

  /** Actions that never reach anyone: a third party without a name for them, a capture without fields. */
  lemma UnansweredAction(w: World, t: Transaction, fields: Option<Fields>, action: Action, skip: bool, rpc: RpcOutcome)
    ensures rpc.ThirdPartyResult? && action in {StatusChanged, Preauthorize, ChangeAmount} ==>
              DoAction(w, t, fields, action, skip, rpc) == w
    ensures rpc.PaymentResult? && action == Capture && fields.None? ==> DoAction(w, t, fields, action, skip, rpc) == w
    ensures rpc.RpcFailed? ==> DoAction(w, t, fields, action, skip, rpc) == w
    ensures rpc.PaymentResult? && (rpc.amount.None? || rpc.amount.value <= 0.0) ==>
              DoAction(w, t, fields, action, skip, rpc) == w
    ensures rpc.ThirdPartyResult? && action in {Cancel, ShippingGoods, Refund, Return, Capture, Edit} ==>
              Answered(action, fields, rpc)
    ensures rpc.PaymentResult? && rpc.amount.Some? && rpc.amount.value > 0.0 && (action == Capture ==> fields.Some?) ==>
              Answered(action, fields, rpc)
  {
  }

  // ---- bus messages ----

  /** The entry a message becomes: a refund or a return keeps no reference. */
  lemma EntryOfMessage(m: Message)
    ensures ToEntry(m) == HistoryEntry(m.action, m.amount, if m.action in {Refund, Return} then None else m.reference)
  {
  }

  /** The actions that are recorded from the bus. */
  predicate FromBus(action: Action) {
    action in {StatusChanged, Preauthorize, Capture, Edit}
  }

  function Pushed(w: World, uuid: string, e: HistoryEntry): map<string, Transaction>
    requires uuid in w.store
  {
    w.store[uuid := w.store[uuid].(history := w.store[uuid].history + [e])]
  }

  /** Which completed messages push an entry, and on which documents: edits on POS DE documents only. */
  lemma BusCompletedExactly(w: World, uuid: string, m: Message)
    ensures var w' := OnBusCompleted(w, uuid, m);
            && w'.outbox == w.outbox
            && w'.store ==
               if uuid in w.store && FromBus(m.action)
                  && (m.action == Edit ==> w.store[uuid].paymentType == "santander_pos_installment")
               then Pushed(w, uuid, HistoryEntry(m.action, m.amount, m.reference)) else w.store
  {
    assert w.outbox + [] == w.outbox;
  }

  lemma BusHistoryExactly(w: World, uuid: string, m: Message)
    ensures var w' := OnBusHistory(w, uuid, m);
            && w'.outbox == w.outbox
            && w'.store == if uuid in w.store && FromBus(m.action)
                           then Pushed(w, uuid, HistoryEntry(m.action, m.amount, m.reference)) else w.store
  {
  }

  lemma NoteExactly(w: World, uuid: string, note: Note)
    requires uuid in w.store
    ensures OnNote(w, uuid, note).outbox == w.outbox
    ensures OnNote(w, uuid, note).store ==
            Pushed(w, uuid, HistoryEntry(OtherAction(match note
                                                     case EmailSent => "email_sent"
                                                     case LabelDownloaded => "shipping-label-downloaded"
                                                     case SlipDownloaded => "shipping-slip-downloaded"), None, None))
  {
  }

  /** A message that names the uuid of a stored document finds it and no other; without one, the original id decides. */
  lemma LookupFinds(store: map<string, Transaction>, uuid: string, id: string, found: string)
    ensures uuid != "" ==> (FoundBy(store, PaymentRef(uuid, id), found) <==> found == uuid && uuid in store)
    ensures FoundBy(store, PaymentRef("", id), found) ==> found in store && store[found].originalId == Some(id)
    ensures Missing(store, PaymentRef("", id)) <==> forall u | u in store :: store[u].originalId != Some(id)
    ensures uuid != "" ==> (Missing(store, PaymentRef(uuid, id)) <==> uuid !in store)
  {
  }
}
