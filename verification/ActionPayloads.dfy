/**
  The payload of a payment action and the amounts read from it and written to it.
  The payload is one shared object: the fee top-up, and the preparation of the fields for a payment
  micro, write the amount that is run and that the history listener records afterwards.
*/
module ActionPayloads {
  import opened Money
  import opened Transactions
  import opened Wrappers

  datatype Fields = Fields(
    amount: Option<real>,
    paymentItems: Option<seq<CartItem>>,
    paymentReturn: Option<real>,
    captureFunds: Option<real>,
    paymentCancel: Option<real>,
    paymentChangeAmount: Option<real>,
    reference: Option<string>)

  /** JavaScript truth of an optional number. */
  predicate Truthy(x: Option<real>) {
    x.Some? && x.value != 0.0
  }

  function AmountOf(fields: Option<Fields>): Option<real> {
    if fields.Some? then fields.value.amount else None
  }

  function ItemsOf(fields: Option<Fields>): seq<CartItem> {
    if fields.Some? then fields.value.paymentItems.GetOr([]) else []
  }

  /** Price times quantity of the items that have both. */
  function ItemsTotal(items: seq<CartItem>): real {
    if items == [] then 0.0
    else
      var last := items[|items| - 1];
      ItemsTotal(items[..|items| - 1]) +
      if Truthy(last.price) && last.quantity != 0 then last.price.value * last.quantity as real else 0.0
  }

  /** Sum of the prices alone; None (not a number) when a price is missing. */
  function PriceTotal(items: seq<CartItem>): Option<real> {
    if items == [] then Some(0.0)
    else
      var rest, last := PriceTotal(items[..|items| - 1]), items[|items| - 1].price;
      if rest.Some? && last.Some? then Some(rest.value + last.value) else None
  }

  predicate AllPriced(items: seq<CartItem>) {
    forall item | item in items :: item.price.Some?
  }

  /** updateAmountFromItems */
  function AmountFromItems(fields: Option<Fields>): Option<Fields> {
    if fields.Some? && fields.value.paymentItems.Some? then
      Some(fields.value.(amount := Some(ItemsTotal(fields.value.paymentItems.value))))
    else fields
  }

  function Fees(t: Transaction): real {
    t.deliveryFee.GetOr(0.0) + t.paymentFee.GetOr(0.0)
  }

  /** The fee top-up of a capture that takes everything but the fees. */
  function TopUp(t: Transaction, fields: Option<Fields>): Option<Fields> {
    var amount := AmountOf(fields);
    if Truthy(amount) && amount.value == AmountCaptureRest(t) - Fees(t) then
      Some(fields.value.(amount := Some(amount.value + Fees(t))))
    else fields
  }

  /** The payload after doAction rewrote it and before the action is run. */
  function Rewritten(t: Transaction, fields: Option<Fields>, action: Action): Option<Fields> {
    if action == ShippingGoods then TopUp(t, AmountFromItems(fields)) else fields
  }

  /** a || b || 0 of a number and an optional one. */
  function FirstTruthy(a: real, b: Option<real>): real {
    if a != 0.0 then a else b.GetOr(0.0)
  }

  /** prepareActionFields: the amount of a payment micro's refund, return or change is overwritten in place. */
  function Prepared(fields: Option<Fields>, action: Action): Option<Fields> {
    if fields.None? then None
    else
      var f := fields.value;
      match action
      case Refund => if f.paymentReturn.Some? then WithAmount(f, f.paymentReturn.value) else fields
      case Return => if f.paymentReturn.Some? then WithAmount(f, f.paymentReturn.value) else fields
      case ChangeAmount => if f.paymentChangeAmount.Some? then WithAmount(f, f.paymentChangeAmount.value) else fields
      case _ => fields
  }

  function WithAmount(f: Fields, amount: real): Option<Fields> {
    Some(f.(amount := Some(FirstTruthy(amount, f.amount))))
  }

  /** The payload as it is run and recorded: a third party is handed it without preparation. */
  function RunFields(t: Transaction, fields: Option<Fields>, action: Action, prepared: bool): Option<Fields> {
    var rewritten := Rewritten(t, fields, action);
    if prepared then Prepared(rewritten, action) else rewritten
  }

  function ActionAmount(fields: Option<Fields>, action: Action): Option<real> {
    if fields.None? then None
    else match action
      case Refund => fields.value.paymentReturn
      case Return => fields.value.paymentReturn
      case ShippingGoods => fields.value.captureFunds
      case Cancel => fields.value.paymentCancel
      case _ => None
  }

  /** getAmountFromPayload: the amount that reaches the ledger. */
  function RecordedAmount(t: Transaction, action: Action, fields: Option<Fields>): real {
    var items := ItemsOf(fields);
    if Truthy(AmountOf(fields)) then AmountOf(fields).value
    else if Truthy(ActionAmount(fields, action)) then ActionAmount(fields, action).value
    else if AllPriced(items) && ItemsTotal(items) != 0.0 then ItemsTotal(items)
    else t.total
  }

  class ActionPayload {
    var fields: Option<Fields>

    constructor (fields: Option<Fields>)
      ensures this.fields == fields
    {
      this.fields := fields;
    }

    /** Overwrites the amount with the items total and hands back the same object. */
    method UpdateAmountFromItems() returns (updated: ActionPayload)
      modifies this
      ensures updated == this
      ensures fields == AmountFromItems(old(fields))
    {
      updated := this;
      if fields.Some? && fields.value.paymentItems.Some? {
        var items := fields.value.paymentItems.value;
        var itemsTotalAmount := 0.0;
        for i := 0 to |items|
          invariant itemsTotalAmount == ItemsTotal(items[..i])
          invariant fields == old(fields)
        {
          assert items[..i + 1][..i] == items[..i];
          if Truthy(items[i].price) && items[i].quantity != 0 {
            itemsTotalAmount := itemsTotalAmount + items[i].price.value * items[i].quantity as real;
          }
        }
        assert items[..|items|] == items;
        fields := Some(fields.value.(amount := Some(itemsTotalAmount)));
      }
    }

    method RewriteForCapture(t: Transaction)
      modifies this
      ensures fields == Rewritten(t, old(fields), ShippingGoods)
    {
      var updated := UpdateAmountFromItems();
      var fee := 0.0;
      if Truthy(t.deliveryFee) {
        fee := fee + t.deliveryFee.value;
      }
      if Truthy(t.paymentFee) {
        fee := fee + t.paymentFee.value;
      }
      if updated.fields.Some? && Truthy(updated.fields.value.amount)
         && updated.fields.value.amount.value == AmountCaptureRest(t) - fee
      {
        updated.fields := Some(updated.fields.value.(
        amount := Some(updated.fields.value.amount.value + fee)));
      }
    }

    /** What the messaging service does to the fields it sends to a payment micro. */
    method PrepareActionFields(action: Action)
      modifies this
      ensures fields == Prepared(old(fields), action)
    {
      if fields.None? {
        return;
      }
      var f := fields.value;
      if action == Refund || action == Return {
        if f.paymentReturn.Some? {
          fields := Some(f.(amount := Some(FirstTruthy(f.paymentReturn.value, f.amount))));
        }
      }
      if action == ChangeAmount && f.paymentChangeAmount.Some? {
        fields := Some(f.(amount := Some(FirstTruthy(f.paymentChangeAmount.value, f.amount))));
      }
    }

    method AmountForHistory(t: Transaction, action: Action) returns (r: real)
      ensures r == RecordedAmount(t, action, fields)
    {
      var amount := if fields.Some? && Truthy(fields.value.amount) then fields.value.amount else None;
      if Truthy(amount) {
        return amount.value;
      }
      amount := ActionAmount(fields, action);
      if Truthy(amount) {
        return amount.value;
      }
      var items := ItemsOf(fields);
      if AllPriced(items) {
        var sum := 0.0;
        for i := 0 to |items|
          invariant sum == ItemsTotal(items[..i])
        {
          assert items[..i + 1][..i] == items[..i];
          assert items[i].price.Some?;
          sum := sum + items[i].price.value * items[i].quantity as real;
        }
        assert items[..|items|] == items;
        if sum != 0.0 {
          return sum;
        }
      }
      r := t.total;
    }
  }

  /** Two payloads' items are worth what each is; one line is worth price times quantity. */
  lemma {:induction false} ItemsTotalAdds(a: seq<CartItem>, b: seq<CartItem>)
    ensures ItemsTotal(a + b) == ItemsTotal(a) + ItemsTotal(b)
    ensures |b| == 1 ==>
              ItemsTotal(b) == if b[0].price.Some? then b[0].price.value * b[0].quantity as real else 0.0
  {
    if b == [] {
      assert a + b == a;
    } else {
      ItemsTotalAdds(a, b[..|b| - 1]);
      assert (a + b)[..|a + b| - 1] == a + b[..|b| - 1];
    }
  }

  lemma {:induction false} PriceTotalAdds(a: seq<CartItem>, b: seq<CartItem>)
    ensures PriceTotal(a + b) == if PriceTotal(a).Some? && PriceTotal(b).Some?
                                 then Some(PriceTotal(a).value + PriceTotal(b).value) else None
    ensures |b| == 1 ==> PriceTotal(b) == b[0].price
  {
    if b == [] {
      assert a + b == a;
    } else {
      PriceTotalAdds(a, b[..|b| - 1]);
      assert (a + b)[..|a + b| - 1] == a + b[..|b| - 1];
    }
  }

  /** The amount a capture asks for: what its items are worth, if it names any, else its amount. */
  function Asked(fields: Fields): Option<real> {
    if fields.paymentItems.Some? then Some(ItemsTotal(fields.paymentItems.value)) else fields.amount
  }

  /** What is recorded of a capture that asks for nothing. */
  function Fallback(fields: Fields, total: real): real {
    if Truthy(fields.captureFunds) then fields.captureFunds.value else total
  }

  /**
    The top-up fires exactly where what is asked for is the rest without the two stored fees: then the
    rest is run and recorded.  Any other amount is run and recorded as it is asked for.
  */
  lemma TopUpExactly(t: Transaction, fields: Fields, prepared: bool, after: Transaction, asked: real)
    requires Asked(fields) == Some(asked) && asked != 0.0
    ensures var rest := AmountCaptureRest(t);
            var run := RunFields(t, Some(fields), ShippingGoods, prepared);
            var amount := if asked == rest - t.deliveryFee.GetOr(0.0) - t.paymentFee.GetOr(0.0) then rest else asked;
            && AmountOf(run) == Some(amount)
            && (amount != 0.0 ==> RecordedAmount(after, ShippingGoods, run) == amount)
            && run == Some(fields.(amount := Some(amount)))
  {
  }

  /**
    A capture of everything but the fees, named by amount or by items, closes the ledger: the amount run
    and recorded is exactly what was left to capture, and nothing is left after it is pushed.
    The total need not be whole cents.  The conditions are read off the payload and the document before
    the action.
  */
  lemma ClosingCapture(t: Transaction, fields: Fields, prepared: bool, after: Transaction)
    requires Asked(fields) == Some(AmountCaptureRest(t) - t.deliveryFee.GetOr(0.0) - t.paymentFee.GetOr(0.0))
    requires Asked(fields).value != 0.0 && AmountCaptureRest(t) > 0.0
    ensures var run := RunFields(t, Some(fields), ShippingGoods, prepared);
            var recorded := RecordedAmount(after, ShippingGoods, run);
            && AmountOf(run) == Some(AmountCaptureRest(t))
            && recorded == AmountCaptureRest(t)
            && forall reference: Option<string> ::
                 AmountCaptureRest(t.(history := t.history +
                                                 [HistoryEntry(ShippingGoods, Some(recorded), reference)])) == 0.0
  {
    var rest := AmountCaptureRest(t);
    TopUpExactly(t, fields, prepared, after, Asked(fields).value);
    forall reference: Option<string>
      ensures AmountCaptureRest(t.(history := t.history +
                                              [HistoryEntry(ShippingGoods, Some(rest), reference)])) == 0.0
    {
      NothingLeft(t, HistoryEntry(ShippingGoods, Some(rest), reference));
    }
  }

  lemma NothingLeft(t: Transaction, e: HistoryEntry)
    requires AmountCaptureRest(t) > 0.0
    requires e.action == ShippingGoods && e.amount == Some(AmountCaptureRest(t))
    ensures AmountCaptureRest(t.(history := t.history + [e])) == 0.0
  {
    SumOfPush(Captures, t.history, e);
    SumOfPush(Refunds, t.history, e);
    RestAfterRest(t.total, SumOf(Captures, t.history), SumOf(Refunds, t.history));
  }

  lemma RestAfterRest(total: real, captured: real, refunded: real)
    ensures var rest := RoundMoney(total - RoundMoney(captured) - RoundMoney(refunded));
            RoundMoney(total - RoundMoney(captured + rest) - RoundMoney(refunded)) == 0.0
  {
    var x := total - RoundMoney(captured) - RoundMoney(refunded);
    CapturedGrows(captured, RoundToCents(x));
    TakingTheRest(x);
    assert total - RoundMoney(captured + RoundMoney(x)) - RoundMoney(refunded) == x - RoundMoney(x);
  }

  lemma CapturedGrows(sum: real, k: int)
    ensures RoundMoney(sum + Cents(k)) == RoundMoney(sum) + Cents(k)
  {
    RoundingShift(sum, k);
  }

  lemma TakingTheRest(x: real)
    ensures RoundMoney(x - RoundMoney(x)) == 0.0
  {
    var k := RoundToCents(x);
    RoundingShift(x, -k);
    assert Cents(-k) == -RoundMoney(x);
  }

  /**
    Exactly when the recorded amount is the rest: either the capture asks for something, or the fees are
    all that is left and what is recorded instead happens to equal the rest.
  */
  lemma ClosingCaptureExactly(t: Transaction, fields: Fields, prepared: bool, after: Transaction)
    requires Asked(fields) == Some(AmountCaptureRest(t) - t.deliveryFee.GetOr(0.0) - t.paymentFee.GetOr(0.0))
    requires AmountCaptureRest(t) > 0.0
    ensures RecordedAmount(after, ShippingGoods, RunFields(t, Some(fields), ShippingGoods, prepared)) ==
            AmountCaptureRest(t)
            <==> Asked(fields).value != 0.0 || Fallback(fields, after.total) == AmountCaptureRest(t)
  {
    if Asked(fields).value != 0.0 {
      ClosingCapture(t, fields, prepared, after);
    } else if fields.paymentItems.None? {
      assert ItemsTotal([]) == 0.0;
    }
  }

  /** No amount is named: missing, or zero. */
  predicate NoAmount(x: Option<real>) {
    x == None || x == Some(0.0)
  }

  /**
    What an action other than a capture records, read off the payload: a payment micro's refund or return
    the amount to return; otherwise its amount; otherwise the amount of the action; otherwise what its
    items are worth; otherwise the total.
  */
  lemma RecordedByAction(t: Transaction, after: Transaction, f: Fields, action: Action, prepared: bool)
    requires action in {Refund, Return, Cancel}
    ensures var recorded := RecordedAmount(after, action, RunFields(t, Some(f), action, prepared));
            var named := if action == Cancel then f.paymentCancel else f.paymentReturn;
            var worth := if f.paymentItems.Some? then ItemsTotal(f.paymentItems.value) else 0.0;
            var priced := f.paymentItems.Some? && forall item | item in f.paymentItems.value :: item.price.Some?;
            && (prepared && action != Cancel && !NoAmount(named) ==> recorded == named.value)
            && (!(prepared && action != Cancel && !NoAmount(named)) && !NoAmount(f.amount) ==> recorded == f.amount.value)
            && (NoAmount(f.amount) && !NoAmount(named) ==> recorded == named.value)
            && (NoAmount(f.amount) && NoAmount(named) ==>
                  recorded == if worth != 0.0 && priced then worth else after.total)
  {
  }

  /** A changed amount is what a payment micro's change records, where one is named. */
  lemma RecordedChange(t: Transaction, after: Transaction, f: Fields)
    ensures !NoAmount(f.paymentChangeAmount) ==>
              RecordedAmount(after, ChangeAmount, RunFields(t, Some(f), ChangeAmount, true)) == f.paymentChangeAmount.value
    ensures !NoAmount(f.amount) && NoAmount(f.paymentChangeAmount) ==>
              RecordedAmount(after, ChangeAmount, RunFields(t, Some(f), ChangeAmount, true)) == f.amount.value
    ensures !NoAmount(f.amount) ==>
              RecordedAmount(after, ChangeAmount, RunFields(t, Some(f), ChangeAmount, false)) == f.amount.value
  {
  }
}
