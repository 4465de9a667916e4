/**
  The transaction document and the amounts that are not stored but recomputed from its history.
*/
module Transactions {
  import opened Money
  import opened Wrappers

  /** A status or action of another name than those the service tells apart. */
  type OtherStatusName = s: string | s !in STATUS_NAMES
  type OtherActionName = s: string | s !in ACTION_NAMES

  const STATUS_NAMES: set<string> := {
    "STATUS_NEW", "STATUS_IN_PROCESS", "STATUS_ACCEPTED", "STATUS_PAID",
    "STATUS_DECLINED", "STATUS_REFUNDED", "STATUS_FAILED", "STATUS_CANCELLED"
  }

  const ACTION_NAMES: set<string> := {
    "cancel", "shipping_goods", "refund", "return", "capture", "edit", "statuschanged", "preauthorize",
    "change_amount"
  }

  datatype Status =
    | New | InProcess | Accepted | Paid | Declined | Refunded | Failed | Cancelled
    | OtherStatus(name: OtherStatusName)

  /** The stored names of the statuses. */
  function StatusName(s: Status): string {
    match s
    case New => "STATUS_NEW"
    case InProcess => "STATUS_IN_PROCESS"
    case Accepted => "STATUS_ACCEPTED"
    case Paid => "STATUS_PAID"
    case Declined => "STATUS_DECLINED"
    case Refunded => "STATUS_REFUNDED"
    case Failed => "STATUS_FAILED"
    case Cancelled => "STATUS_CANCELLED"
    case OtherStatus(name) => name
  }

  /** No two statuses share a stored name. */
  lemma StatusNamesDiffer(a: Status, b: Status)
    ensures StatusName(a) == StatusName(b) ==> a == b
  {
  }

  datatype Action =
    | Cancel | ShippingGoods | Refund | Return | Capture | Edit | StatusChanged | Preauthorize | ChangeAmount
    | OtherAction(name: OtherActionName)

  datatype CartItem = CartItem(
    id: string,
    identifier: string,
    quantity: int,
    price: Option<real>,
    priceNet: Option<real>,
    vatRate: Option<real>,
    fixedShippingPrice: Option<real>,
    shippingPrice: Option<real>,
    shippingSettingsRate: Option<real>,
    weight: Option<real>)

  datatype HistoryEntry = HistoryEntry(action: Action, amount: Option<real>, reference: Option<string>)

  datatype Transaction = Transaction(
    uuid: string,
    originalId: Option<string>,
    amount: real,
    total: real,
    currency: string,
    paymentType: string,
    status: Status,
    specificStatus: Option<string>,
    createdAt: Option<int>,
    deliveryFee: Option<real>,
    downPayment: Option<real>,
    paymentFee: Option<real>,
    shippingProcessed: bool,
    items: seq<CartItem>,
    capturedItems: seq<CartItem>,
    refundedItems: seq<CartItem>,
    history: seq<HistoryEntry>)

  /** Which entries a sum over the history takes in. */
  datatype Ledger = Refunds | RefundActions | Captures | Cancellations

  predicate Counts(ledger: Ledger, action: Action) {
    match ledger
    case Refunds => action == Refund || action == Return
    case RefundActions => action == Refund
    case Captures => action == ShippingGoods
    case Cancellations => action == Cancel
  }

  function Contribution(ledger: Ledger, e: HistoryEntry): real {
    if Counts(ledger, e.action) then e.amount.GetOr(0.0) else 0.0
  }

  /** Exact, unrounded sum of the entries of one kind. */
  function SumOf(ledger: Ledger, history: seq<HistoryEntry>): real {
    if history == [] then 0.0
    else SumOf(ledger, history[..|history| - 1]) + Contribution(ledger, history[|history| - 1])
  }

  lemma SumOfPush(ledger: Ledger, history: seq<HistoryEntry>, e: HistoryEntry)
    ensures SumOf(ledger, history + [e]) == SumOf(ledger, history) + Contribution(ledger, e)
  {
    assert (history + [e])[..|history|] == history;
  }

  /** What one more entry adds: a refund or a return to the refunds, a shipping to the captures, and so on. */
  lemma LedgersByAction(history: seq<HistoryEntry>, e: HistoryEntry)
    ensures var amount := if e.amount.Some? then e.amount.value else 0.0;
            var h := history + [e];
            && SumOf(Refunds, h) == SumOf(Refunds, history) + (if e.action in {Refund, Return} then amount else 0.0)
            && SumOf(RefundActions, h) == SumOf(RefundActions, history) + (if e.action == Refund then amount else 0.0)
            && SumOf(Captures, h) == SumOf(Captures, history) + (if e.action == ShippingGoods then amount else 0.0)
            && SumOf(Cancellations, h) == SumOf(Cancellations, history) + (if e.action == Cancel then amount else 0.0)
    ensures forall ledger: Ledger :: SumOf(ledger, []) == 0.0
  {
    SumOfPush(Refunds, history, e);
    SumOfPush(RefundActions, history, e);
    SumOfPush(Captures, history, e);
    SumOfPush(Cancellations, history, e);
  }

  /** The filter-and-accumulate loop behind amount_refunded, amount_captured and amount_canceled. */
  method RoundedSum(ledger: Ledger, history: seq<HistoryEntry>) returns (r: real)
    ensures r == RoundMoney(SumOf(ledger, history))
  {
    var total := 0.0;
    for i := 0 to |history|
      invariant total == SumOf(ledger, history[..i])
    {
      assert history[..i + 1][..i] == history[..i];
      if Counts(ledger, history[i].action) {
        total := total + history[i].amount.GetOr(0.0);
      }
    }
    assert history[..|history|] == history;
    r := RoundMoney(total);
  }

  function AmountRefunded(t: Transaction): real {
    RoundMoney(SumOf(Refunds, t.history))
  }

  function AmountCaptured(t: Transaction): real {
    RoundMoney(SumOf(Captures, t.history))
  }

  function AmountRefundRest(t: Transaction): real {
    RoundMoney(t.amount - AmountRefunded(t))
  }

  function AmountCaptureRest(t: Transaction): real {
    var rest := RoundMoney(t.total - AmountCaptured(t) - AmountRefunded(t));
    if rest >= 0.0 then rest else 0.0
  }
}
