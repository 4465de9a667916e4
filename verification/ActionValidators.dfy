/**
  The checks that run before an action: amount validators, the items-total check and the item
  validators.  A check passes or throws; the first one that throws stops the action.
*/
module ActionValidators {
  import opened ActionPayloads
  import opened Money
  import opened Transactions
  import opened Wrappers

  datatype Reason =
    | AboveCaptureAmount | AboveRefundAmount | NotPositive | AboveTotal
    | AmountDoesNotMatchItems
    | IdentifierMissing | NotInTransaction | AboveItemQuantity | AboveAllowedQuantity

  datatype AmountValidator = CaptureValidator | RefundValidator | TransactionValidator

  function ValidateAmount(v: AmountValidator, t: Transaction, amount: real, action: Action): Outcome<Reason> {
    match v
    case CaptureValidator =>
      if action == ShippingGoods && amount > RoundMoney(t.total - AmountCaptured(t) - AmountRefunded(t))
      then Fail(AboveCaptureAmount) else Pass
    case RefundValidator =>
      if action == Refund && amount > RoundMoney(t.total - AmountRefunded(t))
      then Fail(AboveRefundAmount) else Pass
    case TransactionValidator =>
      if amount <= 0.0 then Fail(NotPositive)
      else if amount > t.total then Fail(AboveTotal)
      else Pass
  }

  predicate AmountAccepted(t: Transaction, amount: real, action: Action) {
    forall v :: ValidateAmount(v, t, amount, action).Pass?
  }

  /** A collector that was handed each of the three validators, in whatever order. */
  predicate Complete(services: seq<AmountValidator>) {
    forall v: AmountValidator :: v in services
  }

  method ValidateAll(services: seq<AmountValidator>, t: Transaction, amount: real, action: Action)
    returns (r: Outcome<Reason>)
    ensures r.Pass? <==> forall v | v in services :: ValidateAmount(v, t, amount, action).Pass?
    ensures r.Fail? ==> exists i :: 0 <= i < |services| && ValidateAmount(services[i], t, amount, action) == r
                                    && forall j :: 0 <= j < i ==> ValidateAmount(services[j], t, amount, action).Pass?
    ensures Complete(services) ==> (r.Pass? <==> AmountAccepted(t, amount, action))
  {
    for i := 0 to |services|
      invariant forall j :: 0 <= j < i ==> ValidateAmount(services[j], t, amount, action).Pass?
    {
      r := ValidateAmount(services[i], t, amount, action);
      if r.Fail? {
        return;
      }
    }
    r := Pass;
  }

  datatype ItemValidator = IdentifierValidator | MembershipValidator | CaptureItemValidator | RefundItemValidator

  function FindItem(items: seq<CartItem>, identifier: string): Option<CartItem> {
    if items == [] then None
    else if items[0].identifier == identifier then Some(items[0])
    else FindItem(items[1..], identifier)
  }

  function QuantityOf(items: seq<CartItem>, identifier: string): int {
    var found := FindItem(items, identifier);
    if found.Some? then found.value.quantity else 0
  }

  function ValidateItem(v: ItemValidator, t: Transaction, item: CartItem, action: Action): Outcome<Reason> {
    var id := item.identifier;
    var existing := FindItem(t.items, id);
    match v
    case IdentifierValidator =>
      if id == "" then Fail(IdentifierMissing) else Pass
    case MembershipValidator =>
      if existing.None? then Fail(NotInTransaction)
      else if existing.value.quantity < item.quantity then Fail(AboveItemQuantity)
      else Pass
    case CaptureItemValidator =>
      if action == ShippingGoods && existing.Some? &&
         item.quantity > existing.value.quantity - QuantityOf(t.capturedItems, id) - QuantityOf(t.refundedItems, id)
      then Fail(AboveAllowedQuantity) else Pass
    case RefundItemValidator =>
      if action == Refund && existing.Some? &&
         item.quantity > existing.value.quantity - QuantityOf(t.refundedItems, id)
      then Fail(AboveAllowedQuantity) else Pass
  }

  predicate ItemAccepted(t: Transaction, item: CartItem, action: Action) {
    forall v :: ValidateItem(v, t, item, action).Pass?
  }

  predicate Validated(action: Action) {
    action == Refund || action == ShippingGoods
  }

  predicate AmountsPass(t: Transaction, fields: Option<Fields>, action: Action, skipValidation: bool) {
    Validated(action) && Truthy(AmountOf(fields)) && !skipValidation
    ==> AmountAccepted(t, AmountOf(fields).value, action)
  }

  predicate ItemsMatchAmount(fields: Option<Fields>, action: Action) {
    Validated(action) && Truthy(AmountOf(fields)) && ItemsOf(fields) != []
    ==> PriceTotal(ItemsOf(fields)) == AmountOf(fields)
  }

  predicate ItemsPass(t: Transaction, fields: Option<Fields>, action: Action) {
    Validated(action) ==> forall item | item in ItemsOf(fields) :: ItemAccepted(t, item, action)
  }

  /** Every listener of the before-action event lets the action through. */
  predicate BeforeActionPasses(t: Transaction, fields: Option<Fields>, action: Action, skipValidation: bool) {
    && AmountsPass(t, fields, action, skipValidation)
    && ItemsMatchAmount(fields, action)
    && ItemsPass(t, fields, action)
  }

  method BeforeAction(services: seq<AmountValidator>, t: Transaction, fields: Option<Fields>,
                      action: Action, skipValidation: bool)
    returns (passes: bool)
    requires Complete(services)
    ensures passes == BeforeActionPasses(t, fields, action, skipValidation)
  {
    if !Validated(action) {
      return true;
    }
    var amount := AmountOf(fields);
    if Truthy(amount) && !skipValidation {
      var verdict := ValidateAll(services, t, amount.value, action);
      if verdict.Fail? {
        return false;
      }
    }
    var items := ItemsOf(fields);
    if Truthy(amount) && items != [] && PriceTotal(items) != amount {
      return false;
    }
    for i := 0 to |items|
      invariant forall j :: 0 <= j < i ==> ItemAccepted(t, items[j], action)
    {
      if !ItemAccepted(t, items[i], action) {
        return false;
      }
    }
    return true;
  }

  /** The first item of an identifier, and its quantity or zero. */
  lemma {:induction false} FirstOfIdentifier(items: seq<CartItem>, id: string)
    ensures FindItem(items, id).None? <==> forall k :: 0 <= k < |items| ==> items[k].identifier != id
    ensures FindItem(items, id).None? ==> QuantityOf(items, id) == 0
    ensures forall k :: 0 <= k < |items| && items[k].identifier == id && (forall j :: 0 <= j < k ==> items[j].identifier != id)
                        ==> FindItem(items, id) == Some(items[k]) && QuantityOf(items, id) == items[k].quantity
  {
    if items != [] && items[0].identifier != id {
      FirstOfIdentifier(items[1..], id);
      forall k | 0 <= k < |items| && items[k].identifier == id && (forall j :: 0 <= j < k ==> items[j].identifier != id)
        ensures FindItem(items, id) == Some(items[k])
      {
        assert items[1..][k - 1] == items[k];
        assert forall j :: 0 <= j < k - 1 ==> items[1..][j] == items[j + 1];
      }
      assert forall k :: 1 <= k < |items| ==> items[k] == items[1..][k - 1];
    }
  }

  /** What one line of a refund or a capture must meet. */
  lemma LineExactly(t: Transaction, line: CartItem, action: Action)
    requires action in {Refund, ShippingGoods}
    ensures ItemAccepted(t, line, action) <==>
            var bought, refunded := QuantityOf(t.items, line.identifier), QuantityOf(t.refundedItems, line.identifier);
            && line.identifier != ""
            && (exists k :: 0 <= k < |t.items| && t.items[k].identifier == line.identifier)
            && line.quantity <= bought
            && line.quantity <= bought - refunded
                                - if action == ShippingGoods then QuantityOf(t.capturedItems, line.identifier) else 0
  {
    FirstOfIdentifier(t.items, line.identifier);
    assert ItemAccepted(t, line, action) <==>
           && ValidateItem(IdentifierValidator, t, line, action).Pass?
           && ValidateItem(MembershipValidator, t, line, action).Pass?
           && ValidateItem(CaptureItemValidator, t, line, action).Pass?
           && ValidateItem(RefundItemValidator, t, line, action).Pass?;
  }

  /**
    Exactly which actions get past the checks: a refund or a capture whose amount, unless validation is
    skipped, is positive, at most the total and at most the rounded rest, whose amount is the sum of its
    prices, and whose lines are all covered by the purchase; and any other action.
  */
  lemma BeforeActionExactly(t: Transaction, f: Fields, lines: seq<CartItem>, action: Action, skip: bool)
    requires lines == if f.paymentItems.Some? then f.paymentItems.value else []
    ensures action !in {Refund, ShippingGoods} ==> BeforeActionPasses(t, Some(f), action, skip)
    ensures action in {Refund, ShippingGoods} ==>
              (BeforeActionPasses(t, Some(f), action, skip) <==>
               var a := f.amount.GetOr(0.0);
               && (a != 0.0 && !skip ==>
                     && 0.0 < a <= t.total
                     && a <= RoundMoney(if action == ShippingGoods then t.total - AmountCaptured(t) - AmountRefunded(t)
                                        else t.total - AmountRefunded(t)))
               && (a != 0.0 && lines != [] ==> PriceTotal(lines) == Some(a))
               && (forall line | line in lines :: ItemAccepted(t, line, action)))
    ensures BeforeActionPasses(t, None, action, skip)
  {
    if action in {Refund, ShippingGoods} && f.amount.GetOr(0.0) != 0.0 {
      var a := f.amount.value;
      assert ValidateAmount(TransactionValidator, t, a, action).Pass? <==> 0.0 < a <= t.total;
      assert AmountAccepted(t, a, action) <==>
             ValidateAmount(CaptureValidator, t, a, action).Pass? && ValidateAmount(RefundValidator, t, a, action).Pass?
             && ValidateAmount(TransactionValidator, t, a, action).Pass?;
    }
  }

  lemma RoundingErrorOfSums(t: Transaction)
    requires SumOf(Captures, t.history) >= 0.0 && SumOf(Refunds, t.history) >= 0.0
    ensures AmountCaptured(t) >= 0.0 && AmountRefunded(t) >= 0.0
  {
    RoundingMonotone(0.0, SumOf(Captures, t.history));
    RoundingMonotone(0.0, SumOf(Refunds, t.history));
    RoundingWhole(0);
  }

  /** The rounded captured and refunded amounts are whole cents, so a whole-cent total leaves whole cents. */
  lemma AllowedIsExact(t: Transaction)
    requires WholeCents(t.total)
    ensures RoundMoney(t.total - AmountCaptured(t) - AmountRefunded(t)) == t.total - AmountCaptured(t) - AmountRefunded(t)
    ensures RoundMoney(t.total - AmountRefunded(t)) == t.total - AmountRefunded(t)
  {
    var k := (t.total * 100.0).Floor;
    var c, r := RoundToCents(SumOf(Captures, t.history)), RoundToCents(SumOf(Refunds, t.history));
    RoundingWhole(k - c - r);
    RoundingWhole(k - r);
    assert Cents(k - c - r) == t.total - AmountCaptured(t) - AmountRefunded(t);
    assert Cents(k - r) == t.total - AmountRefunded(t);
  }

  /**
    What is advertised is what is accepted: over a whole-cent total, a positive amount passes every
    capture check exactly when it is at most amount_capture_rest.
  */
  lemma AdvertisedCaptureIsAccepted(t: Transaction, amount: real)
    requires WholeCents(t.total) && amount > 0.0
    requires SumOf(Captures, t.history) >= 0.0 && SumOf(Refunds, t.history) >= 0.0
    ensures AmountAccepted(t, amount, ShippingGoods) <==> amount <= AmountCaptureRest(t)
  {
    RoundingErrorOfSums(t);
    AllowedIsExact(t);
    assert ValidateAmount(CaptureValidator, t, amount, ShippingGoods).Pass? <==> amount <= AmountCaptureRest(t);
    assert AmountAccepted(t, amount, ShippingGoods) <==>
           ValidateAmount(CaptureValidator, t, amount, ShippingGoods).Pass?
           && ValidateAmount(TransactionValidator, t, amount, ShippingGoods).Pass?;
  }

  /**
    For any total: the advertised rest is accepted exactly when rounding did not push it above the
    total itself.
  */
  lemma AdvertisedCaptureInGeneral(t: Transaction, amount: real)
    requires amount > 0.0
    ensures AmountAccepted(t, amount, ShippingGoods) <==> amount <= AmountCaptureRest(t) && amount <= t.total
  {
    assert ValidateAmount(CaptureValidator, t, amount, ShippingGoods).Pass? <==> amount <= AmountCaptureRest(t);
    assert ValidateAmount(TransactionValidator, t, amount, ShippingGoods).Pass? <==> amount <= t.total;
  }

  /** A total of 0.006 advertises 0.01, which is refused. */
  lemma AdvertisedCaptureCanBeRefused(t: Transaction)
    requires t.total == 0.006 && t.history == []
    ensures AmountCaptureRest(t) == 0.01 && !AmountAccepted(t, AmountCaptureRest(t), ShippingGoods)
  {
    assert RoundToCents(0.0) == 0;
    assert RoundToCents(0.006) == 1;
    assert ValidateAmount(TransactionValidator, t, 0.01, ShippingGoods) == Fail(AboveTotal);
  }

  /** For any total: a refund passes up to the rounded rest, as long as rounding did not push that above the total. */
  lemma RefundAcceptedInGeneral(t: Transaction, amount: real)
    requires amount > 0.0
    ensures AmountAccepted(t, amount, Refund) <==> amount <= RoundMoney(t.total - AmountRefunded(t)) && amount <= t.total
  {
    assert ValidateAmount(RefundValidator, t, amount, Refund).Pass? <==>
           amount <= RoundMoney(t.total - AmountRefunded(t));
    assert ValidateAmount(TransactionValidator, t, amount, Refund).Pass? <==> amount <= t.total;
  }

  /** For any document: all that is advertised is accepted exactly when the advertised rest itself is. */
  lemma AdvertisedRefundInGeneral(t: Transaction)
    ensures (forall a :: 0.0 < a <= AmountRefundRest(t) ==> AmountAccepted(t, a, Refund))
            <==> AmountRefundRest(t) <= 0.0
                 || (AmountRefundRest(t) <= RoundMoney(t.total - AmountRefunded(t)) && AmountRefundRest(t) <= t.total)
  {
    forall a | 0.0 < a
      ensures AmountAccepted(t, a, Refund) <==> a <= RoundMoney(t.total - AmountRefunded(t)) && a <= t.total
    {
      RefundAcceptedInGeneral(t, a);
    }
    if AmountRefundRest(t) > 0.0 {
      RefundAcceptedInGeneral(t, AmountRefundRest(t));
    }
  }

  /** An amount and total of 0.006 advertise a refund of 0.01, which is refused. */
  lemma AdvertisedRefundCanBeRefused(t: Transaction)
    requires t.total == 0.006 && t.amount == 0.006 && t.history == []
    ensures AmountRefundRest(t) == 0.01 && !AmountAccepted(t, AmountRefundRest(t), Refund)
  {
    assert RoundToCents(0.0) == 0;
    assert RoundToCents(0.006) == 1;
    assert ValidateAmount(TransactionValidator, t, 0.01, Refund) == Fail(AboveTotal);
  }

  lemma RefundAcceptedUpTo(t: Transaction, amount: real)
    requires WholeCents(t.total) && amount > 0.0 && SumOf(Refunds, t.history) >= 0.0
    ensures AmountAccepted(t, amount, Refund) <==> amount <= t.total - AmountRefunded(t)
  {
    RoundingMonotone(0.0, SumOf(Refunds, t.history));
    RoundingWhole(0);
    AllowedIsExact(t);
    assert ValidateAmount(RefundValidator, t, amount, Refund).Pass? <==> amount <= t.total - AmountRefunded(t);
    assert AmountAccepted(t, amount, Refund) <==>
           ValidateAmount(RefundValidator, t, amount, Refund).Pass?
           && ValidateAmount(TransactionValidator, t, amount, Refund).Pass?;
  }

  /**
    Over whole-cent amounts: every positive refund up to the advertised amount_refund_rest is accepted
    exactly when the amount is at most the total (or nothing is advertised).
  */
  lemma AdvertisedRefundIsAccepted(t: Transaction)
    requires WholeCents(t.total) && WholeCents(t.amount) && SumOf(Refunds, t.history) >= 0.0
    ensures (forall a :: 0.0 < a <= AmountRefundRest(t) ==> AmountAccepted(t, a, Refund))
            <==> t.amount <= t.total || AmountRefundRest(t) <= 0.0
  {
    var k, r := (t.amount * 100.0).Floor, RoundToCents(SumOf(Refunds, t.history));
    RoundingWhole(k - r);
    assert Cents(k - r) == t.amount - AmountRefunded(t);
    forall a | 0.0 < a
      ensures AmountAccepted(t, a, Refund) <==> a <= t.total - AmountRefunded(t)
    {
      RefundAcceptedUpTo(t, a);
    }
    if AmountRefundRest(t) > 0.0 {
      RefundAcceptedUpTo(t, AmountRefundRest(t));
    }
  }
}
