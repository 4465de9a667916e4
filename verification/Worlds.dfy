/**
  The state of the service and what each entry point does to it, on values: the document store, the
  search index kept beside it, and the statistics messages sent so far.
*/
module Worlds {
  import opened ActionPayloads
  import opened ActionValidators
  import opened DoubleConverter
  import opened Transactions
  import opened Wrappers

  /**
    A statistics message; the refund sent inside the service carries no amount.  An added amount of
    None is not a number.
  */
  datatype Event =
    | AddEvent(id: string, added: Option<real>)
    | PaidEvent(id: string, amount: real)
    | SubtractEvent(id: string, refunded: Option<real>)
    | InternalRefundEvent(id: string)

  datatype World = World(
    store: map<string, Transaction>,
    index: map<string, Transaction>,
    outbox: seq<Event>)

  /** A document handed to create or updateByUuid; a missing field is not written. */
  datatype Dto = Dto(
    id: Option<string>,
    uuid: Option<string>,
    amount: Option<real>,
    total: Option<real>,
    currency: Option<string>,
    paymentType: Option<string>,
    status: Option<Status>,
    specificStatus: Option<string>,
    createdAt: Option<int>,
    deliveryFee: Option<real>,
    downPayment: Option<real>,
    paymentFee: Option<real>,
    items: Option<seq<CartItem>>,
    history: Option<seq<HistoryEntry>>)

  /** A payment as checkout announces it. */
  datatype Checkout = Checkout(
    id: Option<string>,
    uuid: string,
    amount: real,
    total: real,
    currency: string,
    paymentType: string,
    status: Status,
    specificStatus: Option<string>,
    createdAt: int,
    deliveryFee: Option<real>,
    downPayment: Option<real>,
    paymentFee: Option<real>,
    items: seq<CartItem>,
    history: seq<HistoryEntry>)

  /** fromCheckoutTransaction: everything but the history. */
  function FromCheckout(c: Checkout): Dto {
    Dto(c.id, Some(c.uuid), Some(c.amount), Some(c.total), Some(c.currency), Some(c.paymentType),
        Some(c.status), c.specificStatus, Some(c.createdAt), c.deliveryFee, c.downPayment, c.paymentFee, Some(c.items), None)
  }

  /** A dto that names nothing but statuses. */
  function StatusDto(status: Option<Status>, specificStatus: Option<string>): Dto {
    Dto(None, None, None, None, None, None, status, specificStatus, None, None, None, None, None, None)
  }

  /** updateByUuid deletes the identifiers before it writes the rest. */
  function WithoutIdentifiers(dto: Dto): Dto {
    dto.(id := None, uuid := None)
  }

  /** An atomic change of one stored document, made while its lock is held. */
  datatype Change =
    | SetFields(dto: Dto)
    | SetPayment(amount: real, deliveryFee: Option<real>, status: Status, specificStatus: Option<string>)
    | SetItems(items: seq<CartItem>)
    | SetHistory(history: seq<HistoryEntry>)
    | PushHistory(entry: HistoryEntry)
    | SetShippingProcessed

  function Override<T>(current: Option<T>, update: Option<T>): Option<T> {
    if update.Some? then update else current
  }

  function Apply(t: Transaction, c: Change): Transaction {
    match c
    case SetFields(d) => t.(
      amount := d.amount.GetOr(t.amount),
      total := d.total.GetOr(t.total),
      currency := d.currency.GetOr(t.currency),
      paymentType := d.paymentType.GetOr(t.paymentType),
      status := d.status.GetOr(t.status),
      specificStatus := Override(t.specificStatus, d.specificStatus),
      createdAt := Override(t.createdAt, d.createdAt),
      deliveryFee := Override(t.deliveryFee, d.deliveryFee),
      downPayment := Override(t.downPayment, d.downPayment),
      paymentFee := Override(t.paymentFee, d.paymentFee),
      items := d.items.GetOr(t.items),
      history := d.history.GetOr(t.history))
    case SetPayment(amount, fee, status, specific) =>
      t.(amount := amount, deliveryFee := fee, status := status, specificStatus := specific)
    case SetItems(items) => t.(items := items)
    case SetHistory(history) => t.(history := history)
    case PushHistory(e) => t.(history := t.history + [e])
    case SetShippingProcessed => t.(shippingProcessed := true)
  }

  /** A document that holds nothing but its identifiers. */
  function Blank(uuid: string, originalId: Option<string>): Transaction {
    Transaction(uuid, originalId, 0.0, 0.0, "", "", New, None, None, None, None, None, false, [], [], [], [])
  }

  /** uuid and original_id carry unique indexes, and a missing original_id is a value like any other. */
  predicate Insertable(store: map<string, Transaction>, uuid: string, originalId: Option<string>) {
    uuid !in store && forall u | u in store :: store[u].originalId != originalId
  }

  /** A created or updated event: the listener indexes the packed copy under the document's own uuid. */
  function Indexed(w: World, t: Transaction): World {
    w.(index := w.index[t.uuid := Pack(t)])
  }

  function Stored(w: World, uuid: string, t: Transaction): World {
    w.(store := w.store[uuid := t])
  }

  function Insert(w: World, uuid: string, originalId: Option<string>, dto: Dto): World {
    if Insertable(w.store, uuid, originalId) then
      var t := Apply(Blank(uuid, originalId), SetFields(dto));
      Indexed(Stored(w, uuid, t), t)
    else w
  }

  function Create(w: World, dto: Dto, freshUuid: string): World {
    Insert(w, dto.uuid.GetOr(freshUuid), dto.id, dto)
  }

  /** findOneAndUpdate without upsert, followed by the updated event. */
  function Modify(w: World, uuid: string, c: Change): World {
    if uuid !in w.store then w
    else
      var t := Apply(w.store[uuid], c);
      Indexed(Stored(w, uuid, t), t)
  }

  function UpdateByUuid(w: World, uuid: string, dto: Dto): World {
    if uuid in w.store then Modify(w, uuid, SetFields(WithoutIdentifiers(dto)))
    else Insert(w, uuid, dto.id, WithoutIdentifiers(dto))
  }

  /** setShippingOrderProcessed dispatches no event, so the index is not written. */
  function MarkShipped(w: World, uuid: string): World {
    if uuid in w.store then Stored(w, uuid, Apply(w.store[uuid], SetShippingProcessed)) else w
  }

  function RemoveByUuid(w: World, uuid: string): World {
    if uuid in w.store then w.(store := w.store - {uuid}, index := w.index - {uuid}) else w
  }

  // ---- lookups ----

  /** How a message names its payment: by uuid or, where that is empty, by original id. */
  datatype PaymentRef = PaymentRef(uuid: string, id: string)

  predicate Matches(uuid: string, t: Transaction, params: PaymentRef) {
    if params.uuid != "" then uuid == params.uuid else t.originalId == Some(params.id)
  }

  /** Descending by created_at, a missing date last. */
  predicate NotOlder(a: Transaction, b: Transaction) {
    b.createdAt.None? || (a.createdAt.Some? && a.createdAt.value >= b.createdAt.value)
  }

  predicate Missing(store: map<string, Transaction>, params: PaymentRef) {
    forall u | u in store :: !Matches(u, store[u], params)
  }

  /** One of the newest of the documents that match. */
  predicate FoundBy(store: map<string, Transaction>, params: PaymentRef, uuid: string) {
    && uuid in store && Matches(uuid, store[uuid], params)
    && forall v | v in store && Matches(v, store[v], params) :: NotOlder(store[uuid], store[v])
  }

  // ---- statistics ----

  function AcceptedEvents(store: map<string, Transaction>, id: string, c: Checkout): seq<Event> {
    if id in store && store[id].status != c.status && c.status == Accepted
    then [AddEvent(c.uuid, Some(c.amount))] else []
  }

  function PaidEvents(store: map<string, Transaction>, id: string, c: Checkout): seq<Event> {
    if id in store && store[id].status != c.status && c.status == Paid
    then [PaidEvent(c.uuid, c.amount)] else []
  }

  /** The source binds && tighter than ||: a cancellation is announced whatever the stored status is. */
  function RefundAfterPaidEvents(store: map<string, Transaction>, id: string, c: Checkout): seq<Event> {
    if id in store && ((store[id].status == Paid && c.status == Refunded) || c.status == Cancelled)
    then [InternalRefundEvent(c.uuid)] else []
  }

  function SubtractEvents(store: map<string, Transaction>, id: string, m: Message): seq<Event> {
    if id in store && m.action == Refund then [SubtractEvent(store[id].uuid, m.amount)] else []
  }

  function Less(amount: real, refunded: Option<real>): Option<real> {
    if refunded.Some? then Some(amount - refunded.value) else None
  }

  /** Number(undefined) is not a number, and neither is a sum with it. */
  function RefundedNumber(history: seq<HistoryEntry>): Option<real> {
    if history == [] then Some(0.0)
    else
      var rest, last := RefundedNumber(history[..|history| - 1]), history[|history| - 1];
      if last.action != Refund then rest
      else if rest.Some? && last.amount.Some? then Some(rest.value + last.amount.value)
      else None
  }

  function MigratedEvents(t: Transaction): seq<Event> {
    if t.status == Accepted || t.status == Paid then [AddEvent(t.uuid, Some(t.amount))]
    else if t.status == Refunded then [AddEvent(t.uuid, Less(t.amount, RefundedNumber(t.history)))]
    else []
  }

  /** The messages of an update event, which compare with the status still stored. */
  function UpdateEvents(w: World, c: Checkout): seq<Event> {
    AcceptedEvents(w.store, c.uuid, c)
    + (if c.status == Paid then PaidEvents(w.store, c.uuid, c) else [])
    + (if c.status == Refunded || c.status == Cancelled then RefundAfterPaidEvents(w.store, c.uuid, c) else [])
  }

  /** onTransactionUpdateEvent: statistics first, then the store is written. */
  function OnUpdate(w: World, c: Checkout): World {
    UpdateByUuid(w.(outbox := w.outbox + UpdateEvents(w, c)), c.uuid, FromCheckout(c))
  }

  function OnCreate(w: World, c: Checkout): World {
    Create(w, FromCheckout(c), c.uuid)
  }

  /** onActionMigrateEvent: create or update, replace the history, announce the final document. */
  function OnMigrate(w: World, c: Checkout): World {
    var w1 := if c.uuid in w.store then UpdateByUuid(w, c.uuid, FromCheckout(c)) else OnCreate(w, c);
    if c.uuid !in w1.store then w1
    else
      var w2 := Modify(w1, c.uuid, SetHistory(c.history));
      w2.(outbox := w2.outbox + MigratedEvents(w2.store[c.uuid]))
  }

  // ---- history messages ----

  datatype Message = Message(action: Action, amount: Option<real>, reference: Option<string>)

  /** The two converters: a refund entry does not keep the reference. */
  function ToEntry(m: Message): HistoryEntry {
    if m.action == Refund || m.action == Return then HistoryEntry(m.action, m.amount, None)
    else HistoryEntry(m.action, m.amount, m.reference)
  }

  /** The completed event: the history listener pushes the entry, the statistics listener subtracts a refund. */
  function OnCompleted(w: World, uuid: string, m: Message): World {
    var w1 := Modify(w, uuid, PushHistory(ToEntry(m)));
    w1.(outbox := w1.outbox + SubtractEvents(w1.store, uuid, m))
  }

  predicate AllowedFromBus(action: Action) {
    action == StatusChanged || action == Preauthorize || action == Capture || action == Edit
  }

  const SANTANDER_POS_DE := "santander_pos_installment"

  function OnBusCompleted(w: World, uuid: string, m: Message): World {
    if !AllowedFromBus(m.action) || uuid !in w.store then w
    else if m.action == Edit && w.store[uuid].paymentType != SANTANDER_POS_DE then w
    else OnCompleted(w, uuid, m)
  }

  function OnBusHistory(w: World, uuid: string, m: Message): World {
    if AllowedFromBus(m.action) && uuid in w.store then Modify(w, uuid, PushHistory(ToEntry(m))) else w
  }

  // ---- actions ----

  /**
    What the payment micro or the third party answers to an action.  A failure may come before or after
    the fields were prepared; an answer may lack its items, and a next action that it names may fail.
  */
  datatype RpcOutcome =
    | RpcFailed(prepared: bool)
    | PaymentResult(amount: Option<real>, deliveryFee: Option<real>, status: Status,
                    specificStatus: Option<string>, items: Option<seq<CartItem>>, nextActionFails: bool)
    | ThirdPartyResult(newStatus: Option<Status>, newSpecificStatus: Option<string>)

  /** Whether the fields were prepared for a payment micro. */
  predicate Prepares(rpc: RpcOutcome) {
    rpc.PaymentResult? || (rpc.RpcFailed? && rpc.prepared)
  }

  /** Nothing goes wrong after the answer was found usable. */
  predicate Completes(rpc: RpcOutcome) {
    rpc.PaymentResult? ==> rpc.items.Some? && !rpc.nextActionFails
  }

  predicate Usable(rpc: RpcOutcome) {
    match rpc
    case RpcFailed(_) => false
    case PaymentResult(amount, _, _, _, _, _) => amount.Some? && amount.value > 0.0
    case ThirdPartyResult(_, _) => true
  }

  /** The actions that have a third-party name; they are looked up in lower case. */
  predicate SupportedByThirdParty(action: Action) {
    match action
    case StatusChanged => false
    case Preauthorize => false
    case ChangeAmount => false
    case OtherAction(name) => LowerName(name) in THIRD_PARTY_ACTIONS
    case _ => true
  }

  const THIRD_PARTY_ACTIONS: set<string> := {
    "return", "refund", "authorize", "capture", "shipping_goods", "cancel", "edit", "edit_delivery",
    "edit_reference", "verify", "upload", "send_signing_link"
  }

  function LowerName(name: string): string {
    seq(|name|, i requires 0 <= i < |name| =>
      if 'A' <= name[i] <= 'Z' then (name[i] as int - 'A' as int + 'a' as int) as char else name[i])
  }

  /** A third party is only asked for an action it has a name for, a payment micro for no capture without fields. */
  predicate Answered(action: Action, fields: Option<Fields>, rpc: RpcOutcome) {
    && Usable(rpc)
    && (rpc.ThirdPartyResult? ==> SupportedByThirdParty(action))
    && (rpc.PaymentResult? && action == Capture ==> fields.Some?)
  }

  /** What a third party announces is written only where it is news to the loaded transaction. */
  function News<T(==)>(announced: Option<T>, known: Option<T>): Option<T> {
    if announced.Some? && announced != known then announced else None
  }

  function ThirdPartyUpdate(t: Transaction, newStatus: Option<Status>, newSpecificStatus: Option<string>): Dto {
    StatusDto(News(newStatus, Some(t.status)), News(newSpecificStatus, t.specificStatus))
  }

  /** applyActionRpcResult, or the status update of a third-party payment. */
  function OnRpcResult(w: World, t: Transaction, rpc: RpcOutcome): World {
    if !Usable(rpc) then w
    else match rpc
      case PaymentResult(amount, fee, status, specific, items, _) =>
        var w1 := Modify(w, t.uuid, SetPayment(amount.value, fee, status, specific));
        if items.Some? then Modify(w1, t.uuid, SetItems(items.value)) else w1
      case ThirdPartyResult(status, specific) =>
        var update := ThirdPartyUpdate(t, status, specific);
        if update != StatusDto(None, None) then UpdateByUuid(w, t.uuid, update) else w
  }

  /** The action is validated and answered, so that the answer is applied. */
  predicate Reaches(t: Transaction, fields: Option<Fields>, action: Action, skipValidation: bool, rpc: RpcOutcome) {
    BeforeActionPasses(t, fields, action, skipValidation) && Answered(action, fields, rpc)
  }

  /** The action goes through and the document is there, or there again, when it is reloaded. */
  predicate ActionRuns(w: World, t: Transaction, fields: Option<Fields>, action: Action,
                       skipValidation: bool, rpc: RpcOutcome) {
    && Reaches(t, fields, action, skipValidation, rpc)
    && Completes(rpc)
    && t.uuid in OnRpcResult(w, t, rpc).store
  }

  function ActionMessage(t: Transaction, action: Action, fields: Option<Fields>): Message {
    Message(action, Some(RecordedAmount(t, action, fields)),
            if fields.Some? then fields.value.reference else None)
  }

  /** The message of an action validated on t, once its answer is applied. */
  function MessageAfter(w1: World, t: Transaction, fields: Option<Fields>, action: Action, rpc: RpcOutcome): Message
    requires t.uuid in w1.store
  {
    ActionMessage(w1.store[t.uuid], action, RunFields(t, fields, action, Prepares(rpc)))
  }

  /**
    doAction on a transaction model t that was loaded before.  When something fails after the answer was
    applied, the answer stays and nothing is recorded.
  */
  function DoAction(w: World, t: Transaction, fields: Option<Fields>, action: Action,
                    skipValidation: bool, rpc: RpcOutcome): World {
    if !Reaches(t, fields, action, skipValidation, rpc) then w
    else
      var w1 := OnRpcResult(w, t, rpc);
      if ActionRuns(w, t, fields, action, skipValidation, rpc)
      then OnCompleted(w1, t.uuid, MessageAfter(w1, t, fields, action, rpc)) else w1
  }

  // ---- status updates and notes ----

  const STATUS_UPDATE_TYPES: set<string> := {
    "santander_installment", "santander_pos_installment", "santander_ccp_installment",
    "santander_installment_no", "santander_invoice_no", "santander_installment_dk", "santander_installment_at",
    "payex_creditcard", "instant_payment", "swedbank_creditcard", "swedbank_invoice"
  }

  predicate Refreshable(t: Transaction, rpc: RpcOutcome) {
    && t.paymentType in STATUS_UPDATE_TYPES && t.status != Paid
    && (rpc.PaymentResult? ==> t.status != New)
  }

  /** applyRpcResult writes the payment properties and leaves the items. */
  function WithoutItems(rpc: RpcOutcome): RpcOutcome {
    if rpc.PaymentResult? then rpc.(items := None) else rpc
  }

  /** updateStatus of a loaded transaction: the answer is applied, and no action is recorded. */
  function OnRefresh(w: World, t: Transaction, rpc: RpcOutcome): World {
    if Refreshable(t, rpc) then OnRpcResult(w, t, WithoutItems(rpc)) else w
  }

  /** What the mailer and the shipping service announce. */
  datatype Note = EmailSent | LabelDownloaded | SlipDownloaded

  function NoteMessage(note: Note): Message {
    match note
    case EmailSent => Message(OtherAction("email_sent"), None, None)
    case LabelDownloaded => Message(OtherAction("shipping-label-downloaded"), None, None)
    case SlipDownloaded => Message(OtherAction("shipping-slip-downloaded"), None, None)
  }

  function OnNote(w: World, uuid: string, note: Note): World {
    Modify(w, uuid, PushHistory(ToEntry(NoteMessage(note))))
  }
}
