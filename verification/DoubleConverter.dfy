/**
  Conversion between stored documents (money with decimals) and indexed documents (whole cents).
  pack and unpack overwrite the object they are given, so they run on a toObject copy.
*/
module DoubleConverter {
  import opened Money
  import opened Transactions
  import opened Wrappers

  function PackMoney(x: real): real {
    Trunc(x * 100.0) as real
  }

  function UnpackMoney(x: real): real {
    x / 100.0
  }

  /** A missing or zero field is left as it is. */
  function MapField(x: Option<real>, convert: real -> real): Option<real> {
    if x.Some? && x.value != 0.0 then Some(convert(x.value)) else x
  }

  function MapItem(item: CartItem, convert: real -> real): CartItem {
    item.(
    price := MapField(item.price, convert),
    priceNet := MapField(item.priceNet, convert),
    vatRate := MapField(item.vatRate, convert),
    fixedShippingPrice := MapField(item.fixedShippingPrice, convert),
    shippingPrice := MapField(item.shippingPrice, convert),
    shippingSettingsRate := MapField(item.shippingSettingsRate, convert),
    weight := MapField(item.weight, convert))
  }

  function MapEntry(e: HistoryEntry, convert: real -> real): HistoryEntry {
    e.(amount := MapField(e.amount, convert))
  }

  /** Every money field of the transaction, its items and its history, converted. */
  function Convert(t: Transaction, convert: real -> real): Transaction {
    t.(
    amount := convert(t.amount),
    total := convert(t.total),
    deliveryFee := MapField(t.deliveryFee, convert),
    downPayment := MapField(t.downPayment, convert),
    paymentFee := MapField(t.paymentFee, convert),
    items := seq(|t.items|, i requires 0 <= i < |t.items| => MapItem(t.items[i], convert)),
    history := seq(|t.history|, i requires 0 <= i < |t.history| => MapEntry(t.history[i], convert)))
  }

  function Pack(t: Transaction): Transaction {
    Convert(t, PackMoney)
  }

  function Unpack(t: Transaction): Transaction {
    Convert(t, UnpackMoney)
  }

  /** A plain object copied out of a document (toObject), or read from a search hit. */
  class PlainTransaction {
    var doc: Transaction

    constructor (t: Transaction)
      ensures doc == t
    {
      doc := t;
    }

    method ConvertItems(convert: real -> real)
      modifies this
      ensures doc == old(doc).(items := Convert(old(doc), convert).items)
    {
      for i := 0 to |doc.items|
        invariant doc == old(doc).(items := doc.items)
        invariant |doc.items| == |old(doc).items|
        invariant forall j :: 0 <= j < i ==> doc.items[j] == MapItem(old(doc).items[j], convert)
        invariant forall j :: i <= j < |doc.items| ==> doc.items[j] == old(doc).items[j]
      {
        doc := doc.(items := doc.items[i := MapItem(doc.items[i], convert)]);
      }
    }

    method ConvertHistory(convert: real -> real)
      modifies this
      ensures doc == old(doc).(history := Convert(old(doc), convert).history)
    {
      for i := 0 to |doc.history|
        invariant doc == old(doc).(history := doc.history)
        invariant |doc.history| == |old(doc).history|
        invariant forall j :: 0 <= j < i ==> doc.history[j] == MapEntry(old(doc).history[j], convert)
        invariant forall j :: i <= j < |doc.history| ==> doc.history[j] == old(doc).history[j]
      {
        doc := doc.(history := doc.history[i := MapEntry(doc.history[i], convert)]);
      }
    }

    method ConvertFields(convert: real -> real)
      modifies this
      ensures doc == Convert(old(doc), convert)
    {
      doc := doc.(amount := convert(doc.amount));
      doc := doc.(total := convert(doc.total));
      doc := doc.(deliveryFee := MapField(doc.deliveryFee, convert));
      doc := doc.(downPayment := MapField(doc.downPayment, convert));
      doc := doc.(paymentFee := MapField(doc.paymentFee, convert));
      ConvertItems(convert);
      ConvertHistory(convert);
    }

    method PackInPlace()
      modifies this
      ensures doc == Pack(old(doc))
    {
      ConvertFields(PackMoney);
    }

    method UnpackInPlace()
      modifies this
      ensures doc == Unpack(old(doc))
    {
      ConvertFields(UnpackMoney);
    }
  }

  /** P holds of every money amount stored anywhere in the document. */
  predicate FieldHolds(x: Option<real>, p: real -> bool) {
    x.Some? ==> p(x.value)
  }

  predicate ItemHolds(item: CartItem, p: real -> bool) {
    && FieldHolds(item.price, p) && FieldHolds(item.priceNet, p) && FieldHolds(item.vatRate, p)
    && FieldHolds(item.fixedShippingPrice, p) && FieldHolds(item.shippingPrice, p)
    && FieldHolds(item.shippingSettingsRate, p) && FieldHolds(item.weight, p)
  }

  predicate AllMoney(t: Transaction, p: real -> bool) {
    && p(t.amount) && p(t.total)
    && FieldHolds(t.deliveryFee, p) && FieldHolds(t.downPayment, p) && FieldHolds(t.paymentFee, p)
    && (forall i :: 0 <= i < |t.items| ==> ItemHolds(t.items[i], p))
    && (forall i :: 0 <= i < |t.history| ==> FieldHolds(t.history[i].amount, p))
  }

  /** Toward zero, by less than a cent. */
  predicate Truncated(before: real, after: real) {
    && (before >= 0.0 ==> after <= before < after + 0.01)
    && (before <= 0.0 ==> after - 0.01 < before <= after)
    && (WholeCents(before) ==> after == before)
    && WholeCents(after)
  }

  predicate TruncatedField(before: Option<real>, after: Option<real>) {
    before.Some? == after.Some? && (before.Some? ==> Truncated(before.value, after.value))
  }

  /** Same item, same quantity, every amount truncated. */
  predicate TruncatedItem(a: CartItem, b: CartItem) {
    && a.id == b.id && a.identifier == b.identifier && a.quantity == b.quantity
    && TruncatedField(a.price, b.price) && TruncatedField(a.priceNet, b.priceNet)
    && TruncatedField(a.vatRate, b.vatRate) && TruncatedField(a.fixedShippingPrice, b.fixedShippingPrice)
    && TruncatedField(a.shippingPrice, b.shippingPrice)
    && TruncatedField(a.shippingSettingsRate, b.shippingSettingsRate)
    && TruncatedField(a.weight, b.weight)
  }

  lemma RoundTripMoney(x: real)
    ensures Truncated(x, UnpackMoney(PackMoney(x)))
  {
    TruncationError(x);
    RoundingWhole(Trunc(x * 100.0));
  }

  lemma RoundTripField(x: Option<real>)
    ensures TruncatedField(x, MapField(MapField(x, PackMoney), UnpackMoney))
  {
    if x.Some? {
      RoundTripMoney(x.value);
      assert UnpackMoney(0.0) == 0.0;
      assert x.value == 0.0 ==> PackMoney(x.value) == 0.0;
      assert MapField(MapField(x, PackMoney), UnpackMoney) == Some(UnpackMoney(PackMoney(x.value)));
    }
  }

  lemma RoundTripItem(item: CartItem)
    ensures TruncatedItem(item, MapItem(MapItem(item, PackMoney), UnpackMoney))
  {
    RoundTripField(item.price);
    RoundTripField(item.priceNet);
    RoundTripField(item.vatRate);
    RoundTripField(item.fixedShippingPrice);
    RoundTripField(item.shippingPrice);
    RoundTripField(item.shippingSettingsRate);
    RoundTripField(item.weight);
  }

  /**
    What a search returns after indexing: the same document, each amount truncated toward zero by
    less than a cent, and nothing else changed.
  */
  lemma UnpackAfterPack(t: Transaction)
    ensures var u := Unpack(Pack(t));
            && u == t.(amount := u.amount, total := u.total, deliveryFee := u.deliveryFee,
                       downPayment := u.downPayment, paymentFee := u.paymentFee, items := u.items,
                       history := u.history)
            && Truncated(t.amount, u.amount) && Truncated(t.total, u.total)
            && TruncatedField(t.deliveryFee, u.deliveryFee)
            && TruncatedField(t.downPayment, u.downPayment)
            && TruncatedField(t.paymentFee, u.paymentFee)
            && |u.items| == |t.items| && |u.history| == |t.history|
            && (forall i :: 0 <= i < |t.items| ==> TruncatedItem(t.items[i], u.items[i]))
            && (forall i :: 0 <= i < |t.history| ==>
                  && u.history[i] == t.history[i].(amount := u.history[i].amount)
                  && TruncatedField(t.history[i].amount, u.history[i].amount))
  {
    RoundTripMoney(t.amount);
    RoundTripMoney(t.total);
    RoundTripField(t.deliveryFee);
    RoundTripField(t.downPayment);
    RoundTripField(t.paymentFee);
    RoundTripLists(t);
  }

  lemma RoundTripLists(t: Transaction)
    ensures var u := Unpack(Pack(t));
            && |u.items| == |t.items| && |u.history| == |t.history|
            && (forall i :: 0 <= i < |t.items| ==> TruncatedItem(t.items[i], u.items[i]))
            && (forall i :: 0 <= i < |t.history| ==>
                  && u.history[i] == t.history[i].(amount := u.history[i].amount)
                  && TruncatedField(t.history[i].amount, u.history[i].amount))
  {
    forall i | 0 <= i < |t.items| ensures TruncatedItem(t.items[i], Unpack(Pack(t)).items[i]) {
      RoundTripItem(t.items[i]);
    }
    forall i | 0 <= i < |t.history|
      ensures TruncatedField(t.history[i].amount, Unpack(Pack(t)).history[i].amount)
    {
      RoundTripField(t.history[i].amount);
    }
  }

  /** A hundred times the amount, toward zero, by less than one. */
  predicate TruncatedCents(before: real, after: real) {
    && (before >= 0.0 ==> 0.0 <= after <= 100.0 * before < after + 1.0)
    && (before <= 0.0 ==> after - 1.0 < 100.0 * before <= after <= 0.0)
    && after == after.Floor as real
  }

  predicate CentsOfField(before: Option<real>, after: Option<real>) {
    before.Some? == after.Some? && (before.Some? ==> TruncatedCents(before.value, after.value))
  }

  predicate HundredthOfField(before: Option<real>, after: Option<real>) {
    before.Some? == after.Some? && (before.Some? ==> after.value * 100.0 == before.value)
  }

  lemma PackedAmount(x: real)
    ensures TruncatedCents(x, PackMoney(x))
  {
    TruncationError(x);
  }

  lemma PackedField(x: Option<real>)
    ensures CentsOfField(x, MapField(x, PackMoney))
    ensures HundredthOfField(x, MapField(x, UnpackMoney))
  {
    if x.Some? {
      PackedAmount(x.value);
    }
  }

  /** One item: each of its seven amounts becomes its own cents, and the rest stays. */
  lemma PackedItem(t: Transaction, i: nat)
    requires i < |t.items|
    ensures var a, b := t.items[i], Pack(t).items[i];
            && CentsOfField(a.price, b.price) && CentsOfField(a.priceNet, b.priceNet)
            && CentsOfField(a.vatRate, b.vatRate) && CentsOfField(a.fixedShippingPrice, b.fixedShippingPrice)
            && CentsOfField(a.shippingPrice, b.shippingPrice)
            && CentsOfField(a.shippingSettingsRate, b.shippingSettingsRate) && CentsOfField(a.weight, b.weight)
            && b.id == a.id && b.identifier == a.identifier && b.quantity == a.quantity
  {
    var item := t.items[i];
    PackedField(item.price);
    PackedField(item.priceNet);
    PackedField(item.vatRate);
    PackedField(item.fixedShippingPrice);
    PackedField(item.shippingPrice);
    PackedField(item.shippingSettingsRate);
    PackedField(item.weight);
  }

  /** The indexed document, field by field. */
  lemma PackedDocument(t: Transaction)
    ensures var p := Pack(t);
            && p == t.(amount := p.amount, total := p.total, deliveryFee := p.deliveryFee,
                       downPayment := p.downPayment, paymentFee := p.paymentFee, items := p.items,
                       history := p.history)
            && TruncatedCents(t.amount, p.amount) && TruncatedCents(t.total, p.total)
            && CentsOfField(t.deliveryFee, p.deliveryFee) && CentsOfField(t.downPayment, p.downPayment)
            && CentsOfField(t.paymentFee, p.paymentFee)
            && |p.items| == |t.items| && |p.history| == |t.history|
            && (forall i :: 0 <= i < |t.history| ==>
                  && p.history[i] == t.history[i].(amount := p.history[i].amount)
                  && CentsOfField(t.history[i].amount, p.history[i].amount))
  {
    PackedAmount(t.amount);
    PackedAmount(t.total);
    PackedField(t.deliveryFee);
    PackedField(t.downPayment);
    PackedField(t.paymentFee);
    forall i | 0 <= i < |t.history| ensures CentsOfField(t.history[i].amount, Pack(t).history[i].amount) {
      PackedField(t.history[i].amount);
    }
  }

  lemma UnpackedItem(t: Transaction, i: nat)
    requires i < |t.items|
    ensures var a, b := t.items[i], Unpack(t).items[i];
            && HundredthOfField(a.price, b.price) && HundredthOfField(a.priceNet, b.priceNet)
            && HundredthOfField(a.vatRate, b.vatRate) && HundredthOfField(a.fixedShippingPrice, b.fixedShippingPrice)
            && HundredthOfField(a.shippingPrice, b.shippingPrice)
            && HundredthOfField(a.shippingSettingsRate, b.shippingSettingsRate) && HundredthOfField(a.weight, b.weight)
            && b.id == a.id && b.identifier == a.identifier && b.quantity == a.quantity
  {
    var item := t.items[i];
    PackedField(item.price);
    PackedField(item.priceNet);
    PackedField(item.vatRate);
    PackedField(item.fixedShippingPrice);
    PackedField(item.shippingPrice);
    PackedField(item.shippingSettingsRate);
    PackedField(item.weight);
  }

  /** The document read back from an index entry, field by field. */
  lemma UnpackedDocument(t: Transaction)
    ensures var u := Unpack(t);
            && u == t.(amount := u.amount, total := u.total, deliveryFee := u.deliveryFee,
                       downPayment := u.downPayment, paymentFee := u.paymentFee, items := u.items,
                       history := u.history)
            && u.amount * 100.0 == t.amount && u.total * 100.0 == t.total
            && HundredthOfField(t.deliveryFee, u.deliveryFee) && HundredthOfField(t.downPayment, u.downPayment)
            && HundredthOfField(t.paymentFee, u.paymentFee)
            && |u.items| == |t.items| && |u.history| == |t.history|
            && (forall i :: 0 <= i < |t.history| ==>
                  && u.history[i] == t.history[i].(amount := u.history[i].amount)
                  && HundredthOfField(t.history[i].amount, u.history[i].amount))
  {
    PackedField(t.deliveryFee);
    PackedField(t.downPayment);
    PackedField(t.paymentFee);
    forall i | 0 <= i < |t.history| ensures HundredthOfField(t.history[i].amount, Unpack(t).history[i].amount) {
      PackedField(t.history[i].amount);
    }
  }

  predicate IntegerCents(x: real) {
    x == x.Floor as real
  }

  predicate Undoes(second: real -> real, first: real -> real, x: real) {
    second(first(x)) == x && (x != 0.0 ==> first(x) != 0.0)
  }

  /** Two conversions cancel on a document as soon as they cancel on each of its amounts. */
  lemma ConversionsCancel(t: Transaction, first: real -> real, second: real -> real)
    requires AllMoney(t, x => Undoes(second, first, x))
    ensures Convert(Convert(t, first), second) == t
  {
    var u := Convert(Convert(t, first), second);
    forall i | 0 <= i < |t.items| ensures u.items[i] == t.items[i] {
      assert ItemHolds(t.items[i], x => Undoes(second, first, x));
    }
    forall i | 0 <= i < |t.history| ensures u.history[i] == t.history[i] {
      assert FieldHolds(t.history[i].amount, x => Undoes(second, first, x));
    }
    assert u.items == t.items;
    assert u.history == t.history;
  }

  lemma WholeCentsUndone(x: real)
    requires WholeCents(x)
    ensures Undoes(UnpackMoney, PackMoney, x)
  {
    TruncationError(x);
  }

  lemma IntegersUndone(x: real)
    requires IntegerCents(x)
    ensures Undoes(PackMoney, UnpackMoney, x)
  {
    assert UnpackMoney(x) * 100.0 == x;
    assert x < 0.0 ==> (-x).Floor == -(x.Floor);
  }

  lemma FieldImplies(x: Option<real>, p: real -> bool, q: real -> bool)
    requires forall y :: p(y) ==> q(y)
    requires FieldHolds(x, p)
    ensures FieldHolds(x, q)
  {
    if x.Some? {
      var v := x.value;
      assert p(v);
    }
  }

  lemma ItemImplies(item: CartItem, p: real -> bool, q: real -> bool)
    requires forall y :: p(y) ==> q(y)
    requires ItemHolds(item, p)
    ensures ItemHolds(item, q)
  {
    FieldImplies(item.price, p, q);
    FieldImplies(item.priceNet, p, q);
    FieldImplies(item.vatRate, p, q);
    FieldImplies(item.fixedShippingPrice, p, q);
    FieldImplies(item.shippingPrice, p, q);
    FieldImplies(item.shippingSettingsRate, p, q);
    FieldImplies(item.weight, p, q);
  }

  lemma AllMoneyImplies(t: Transaction, p: real -> bool, q: real -> bool)
    requires AllMoney(t, p)
    requires forall x :: p(x) ==> q(x)
    ensures AllMoney(t, q)
  {
    FieldImplies(t.deliveryFee, p, q);
    FieldImplies(t.downPayment, p, q);
    FieldImplies(t.paymentFee, p, q);
    forall i | 0 <= i < |t.items| ensures ItemHolds(t.items[i], q) {
      ItemImplies(t.items[i], p, q);
    }
    forall i | 0 <= i < |t.history| ensures FieldHolds(t.history[i].amount, q) {
      FieldImplies(t.history[i].amount, p, q);
    }
  }

  lemma WholeCentsRoundTrip(t: Transaction)
    requires AllMoney(t, WholeCents)
    ensures Unpack(Pack(t)) == t
  {
    forall x | WholeCents(x) ensures Undoes(UnpackMoney, PackMoney, x) {
      WholeCentsUndone(x);
    }
    AllMoneyImplies(t, WholeCents, x => Undoes(UnpackMoney, PackMoney, x));
    ConversionsCancel(t, PackMoney, UnpackMoney);
  }

  /** On an indexed document (integer cents) unpack loses nothing. */
  lemma PackAfterUnpack(t: Transaction)
    requires AllMoney(t, IntegerCents)
    ensures Pack(Unpack(t)) == t
  {
    forall x | IntegerCents(x) ensures Undoes(PackMoney, UnpackMoney, x) {
      IntegersUndone(x);
    }
    AllMoneyImplies(t, IntegerCents, x => Undoes(PackMoney, UnpackMoney, x));
    ConversionsCancel(t, UnpackMoney, PackMoney);
  }

  lemma PackedIsInteger(t: Transaction)
    ensures AllMoney(Pack(t), IntegerCents)
  {
    var p := IntegerCents;
    assert forall x :: p(PackMoney(x));
    assert p(0.0);
    forall i | 0 <= i < |t.items| ensures ItemHolds(Pack(t).items[i], p) {
    }
    forall i | 0 <= i < |t.history| ensures FieldHolds(Pack(t).history[i].amount, p) {
    }
  }

  /** Re-indexing what a search returned changes nothing. */
  lemma PackUnpackPack(t: Transaction)
    ensures Pack(Unpack(Pack(t))) == Pack(t)
  {
    PackedIsInteger(t);
    PackAfterUnpack(Pack(t));
  }
}
