/**
  Captured and refunded quantities per item: the merge loops of the transactions service, the item
  validators in front of them, and the items a transaction still offers for refund.
*/
module ItemLedger {
  import opened ActionValidators
  import opened Transactions
  import opened Wrappers

  /** Which of the two lists of a transaction a payload is merged into. */
  datatype Side = CapturedSide | RefundedSide

  function ListOf(t: Transaction, side: Side): seq<CartItem> {
    if side == CapturedSide then t.capturedItems else t.refundedItems
  }

  function WithList(t: Transaction, side: Side, items: seq<CartItem>): Transaction {
    if side == CapturedSide then t.(capturedItems := items) else t.(refundedItems := items)
  }

  function SideAction(side: Side): Action {
    if side == CapturedSide then ShippingGoods else Refund
  }

  /** Quantity a payload names for one identifier, all its lines together. */
  function NamedQuantity(payload: seq<CartItem>, identifier: string): int {
    if payload == [] then 0
    else
      var last := payload[|payload| - 1];
      NamedQuantity(payload[..|payload| - 1], identifier) + if last.identifier == identifier then last.quantity else 0
  }

  predicate Distinct(items: seq<CartItem>) {
    forall i, j :: 0 <= i < j < |items| ==> items[i].identifier != items[j].identifier
  }

  function Identifiers(items: seq<CartItem>): set<string> {
    set item | item in items :: item.identifier
  }

  lemma {:induction false} FindItemIs(items: seq<CartItem>, k: nat)
    requires Distinct(items) && k < |items|
    ensures FindItem(items, items[k].identifier) == Some(items[k])
  {
    if k > 0 {
      assert items[0].identifier != items[k].identifier;
      FindItemIs(items[1..], k - 1);
    }
  }

  /** One payload line: added to the first item of its identifier, or pushed. */
  function Merge(items: seq<CartItem>, line: CartItem): seq<CartItem> {
    if items == [] then [line]
    else if items[0].identifier == line.identifier then
      [items[0].(quantity := items[0].quantity + line.quantity)] + items[1..]
    else [items[0]] + Merge(items[1..], line)
  }

  function MergeAll(items: seq<CartItem>, payload: seq<CartItem>): seq<CartItem> {
    if payload == [] then items else Merge(MergeAll(items, payload[..|payload| - 1]), payload[|payload| - 1])
  }

  /** The in-place form: find the index, then update or push. */
  lemma {:induction false} MergeAtIndex(items: seq<CartItem>, line: CartItem, k: nat)
    requires k <= |items|
    requires forall i :: 0 <= i < k ==> items[i].identifier != line.identifier
    requires k < |items| ==> items[k].identifier == line.identifier
    ensures Merge(items, line) ==
            if k < |items| then items[k := items[k].(quantity := items[k].quantity + line.quantity)]
            else items + [line]
  {
    if k > 0 {
      var rest := items[1..];
      MergeAtIndex(rest, line, k - 1);
      assert items == [items[0]] + rest;
      if k < |items| {
        var merged := items[k].(quantity := items[k].quantity + line.quantity);
        assert [items[0]] + rest[k - 1 := merged] == items[k := merged];
      }
    }
  }

  lemma {:induction false} MergeQuantity(items: seq<CartItem>, line: CartItem, id: string)
    ensures QuantityOf(Merge(items, line), id) == QuantityOf(items, id) + if id == line.identifier then line.quantity else 0
  {
    if items == [] {
      assert [line][1..] == [];
    } else {
      if items[0].identifier == line.identifier {
        assert Merge(items, line)[1..] == items[1..];
      } else {
        MergeQuantity(items[1..], line, id);
        assert Merge(items, line)[1..] == Merge(items[1..], line);
      }
    }
  }

  lemma {:induction false} MergeIdentifiers(items: seq<CartItem>, line: CartItem, i: nat)
    requires i < |Merge(items, line)|
    ensures |items| <= |Merge(items, line)|
    ensures i < |items| ==> Merge(items, line)[i].identifier == items[i].identifier
    ensures i >= |items| ==> Merge(items, line)[i].identifier == line.identifier
                             && forall j :: 0 <= j < |items| ==> items[j].identifier != line.identifier
  {
    if items != [] && items[0].identifier != line.identifier {
      assert Merge(items, line)[1..] == Merge(items[1..], line);
      if i > 0 {
        MergeIdentifiers(items[1..], line, i - 1);
      } else {
        MergeIdentifiers(items[1..], line, 0);
      }
    }
  }

  lemma MergeDistinct(items: seq<CartItem>, line: CartItem)
    requires Distinct(items)
    ensures Distinct(Merge(items, line))
  {
    forall i, j | 0 <= i < j < |Merge(items, line)|
      ensures Merge(items, line)[i].identifier != Merge(items, line)[j].identifier
    {
      MergeIdentifiers(items, line, i);
      MergeIdentifiers(items, line, j);
      assert j < |items| || i < |items| by {
        if i >= |items| {
          MergeLength(items, line);
        }
      }
    }
  }

  lemma {:induction false} MergeLength(items: seq<CartItem>, line: CartItem)
    ensures |items| <= |Merge(items, line)| <= |items| + 1
  {
    if items != [] {
      MergeLength(items[1..], line);
    }
  }

  lemma MergeAllStep(items: seq<CartItem>, payload: seq<CartItem>, n: nat)
    requires n < |payload|
    ensures MergeAll(items, payload[..n + 1]) == Merge(MergeAll(items, payload[..n]), payload[n])
  {
    assert payload[..n + 1][..n] == payload[..n];
  }

  class TransactionModel {
    var doc: Transaction

    constructor (doc: Transaction)
      ensures this.doc == doc
    {
      this.doc := doc;
    }

    /** saveCaptureItems and saveRefundItems. */
    method SaveItems(side: Side, payload: seq<CartItem>)
      modifies this
      ensures doc == WithList(old(doc), side, MergeAll(ListOf(old(doc), side), payload))
    {
      ghost var before := ListOf(doc, side);
      for n := 0 to |payload|
        invariant doc == WithList(old(doc), side, MergeAll(before, payload[..n]))
      {
        var items, line := ListOf(doc, side), payload[n];
        var k := 0;
        while k < |items| && items[k].identifier != line.identifier
          invariant 0 <= k <= |items|
          invariant forall i :: 0 <= i < k ==> items[i].identifier != line.identifier
        {
          k := k + 1;
        }
        MergeAtIndex(items, line, k);
        MergeAllStep(before, payload, n);
        items := if k < |items| then items[k := items[k].(quantity := items[k].quantity + line.quantity)]
                 else items + [line];
        doc := WithList(doc, side, items);
      }
      assert payload[..|payload|] == payload;
    }

    /** available_refund_items: the items that still have something to refund, with how much. */
    method AvailableRefundItems() returns (available: seq<(string, int)>)
      ensures available == Available(doc.items, doc.refundedItems)
    {
      available := [];
      for i := 0 to |doc.items|
        invariant available == Available(doc.items[..i], doc.refundedItems)
      {
        var item := doc.items[i];
        var availableCount := item.quantity;
        var existing := FindItem(doc.refundedItems, item.identifier);
        if existing.Some? && existing.value.quantity != 0 {
          availableCount := availableCount - existing.value.quantity;
        }
        if availableCount > 0 {
          available := available + [(item.identifier, availableCount)];
        }
        assert doc.items[..i + 1][..i] == doc.items[..i];
      }
      assert doc.items[..|doc.items|] == doc.items;
    }
  }

  function Available(items: seq<CartItem>, refunded: seq<CartItem>): seq<(string, int)> {
    if items == [] then []
    else
      var last := items[|items| - 1];
      var count := last.quantity - QuantityOf(refunded, last.identifier);
      Available(items[..|items| - 1], refunded) + if count > 0 then [(last.identifier, count)] else []
  }

  function AvailableCount(available: seq<(string, int)>, identifier: string): int {
    if available == [] then 0
    else if available[|available| - 1].0 == identifier then available[|available| - 1].1
    else AvailableCount(available[..|available| - 1], identifier)
  }

  /** Every identifier gains exactly what the payload names for it, all its lines together. */
  lemma {:induction false} MergeAllQuantities(items: seq<CartItem>, payload: seq<CartItem>)
    ensures Distinct(items) ==> Distinct(MergeAll(items, payload))
    ensures forall id :: QuantityOf(MergeAll(items, payload), id) == QuantityOf(items, id) + NamedQuantity(payload, id)
  {
    if payload != [] {
      var prefix, line := payload[..|payload| - 1], payload[|payload| - 1];
      MergeAllQuantities(items, prefix);
      if Distinct(items) {
        MergeDistinct(MergeAll(items, prefix), line);
      }
      forall id
        ensures QuantityOf(MergeAll(items, payload), id) == QuantityOf(items, id) + NamedQuantity(payload, id)
      {
        MergeQuantity(MergeAll(items, prefix), line, id);
      }
    }
  }

  // ---- runs ----

  predicate PayloadAccepted(t: Transaction, side: Side, payload: seq<CartItem>) {
    forall line | line in payload :: ItemAccepted(t, line, SideAction(side))
  }

  /** A payload is merged only when every line passes the item validators; otherwise nothing happens. */
  function Save(t: Transaction, side: Side, payload: seq<CartItem>): Transaction {
    if PayloadAccepted(t, side, payload) then WithList(t, side, MergeAll(ListOf(t, side), payload)) else t
  }

  function RunSaves(t: Transaction, saves: seq<(Side, seq<CartItem>)>): Transaction {
    if saves == [] then t
    else Save(RunSaves(t, saves[..|saves| - 1]), saves[|saves| - 1].0, saves[|saves| - 1].1)
  }

  /** No more of any item in the list than was purchased. */
  ghost predicate Within(t: Transaction, side: Side) {
    forall id :: QuantityOf(ListOf(t, side), id) <= QuantityOf(t.items, id)
  }

  ghost predicate NothingTakenBack(t: Transaction) {
    forall id :: QuantityOf(t.refundedItems, id) >= 0
  }

  /** No purchased item of which something is captured has a negative refunded quantity. */
  ghost predicate CaptureSafe(t: Transaction) {
    forall id | id != "" && FindItem(t.items, id).Some? && QuantityOf(t.capturedItems, id) > 0 ::
      QuantityOf(t.refundedItems, id) >= 0
  }

  lemma {:induction false} NamedQuantityAbsent(payload: seq<CartItem>, identifier: string)
    requires identifier !in Identifiers(payload)
    ensures NamedQuantity(payload, identifier) == 0
  {
    if payload != [] {
      var last := payload[|payload| - 1];
      assert last in payload;
      forall id | id in Identifiers(payload[..|payload| - 1]) ensures id in Identifiers(payload) {
      }
      NamedQuantityAbsent(payload[..|payload| - 1], identifier);
    }
  }

  /** In a payload of distinct identifiers a line names all there is. */
  lemma {:induction false} NamedQuantityDistinct(payload: seq<CartItem>, k: nat)
    requires Distinct(payload) && k < |payload|
    ensures NamedQuantity(payload, payload[k].identifier) == payload[k].quantity
  {
    var prefix := payload[..|payload| - 1];
    if k == |payload| - 1 {
      forall item | item in prefix ensures item.identifier != payload[k].identifier {
      }
      NamedQuantityAbsent(prefix, payload[k].identifier);
    } else {
      NamedQuantityDistinct(prefix, k);
      assert payload[k].identifier != payload[|payload| - 1].identifier;
    }
  }

  /** What the validators of one payload, line by line, say about its identifiers. */
  lemma AcceptedPayload(t: Transaction, side: Side, payload: seq<CartItem>, id: string)
    requires Distinct(payload) && Within(t, side)
    requires PayloadAccepted(t, side, payload)
    requires side == RefundedSide || CaptureSafe(t)
    ensures NamedQuantity(payload, id) <= QuantityOf(t.items, id) - QuantityOf(ListOf(t, side), id)
  {
    if i :| 0 <= i < |payload| && payload[i].identifier == id {
      NamedQuantityDistinct(payload, i);
      assert ItemAccepted(t, payload[i], SideAction(side));
      assert ValidateItem(IdentifierValidator, t, payload[i], SideAction(side)).Pass?;
      assert ValidateItem(MembershipValidator, t, payload[i], SideAction(side)).Pass?;
      assert ValidateItem(CaptureItemValidator, t, payload[i], SideAction(side)).Pass?;
      assert ValidateItem(RefundItemValidator, t, payload[i], SideAction(side)).Pass?;
    } else {
      NamedQuantityAbsent(payload, id);
      assert QuantityOf(ListOf(t, side), id) <= QuantityOf(t.items, id);
    }
  }

  lemma {:induction false} NamedQuantitySign(payload: seq<CartItem>, id: string)
    requires forall line | line in payload :: line.quantity >= 0
    ensures NamedQuantity(payload, id) >= 0
  {
    if payload != [] {
      NamedQuantitySign(payload[..|payload| - 1], id);
      assert payload[|payload| - 1] in payload;
    }
  }

  /**
    For any accepted payload, repeated identifiers included: no more is captured or refunded than was
    purchased exactly when, for each identifier, all its lines together fit in what is left of it.
  */
  lemma SaveExactlyWithin(t: Transaction, side: Side, payload: seq<CartItem>)
    requires PayloadAccepted(t, side, payload)
    ensures Within(Save(t, side, payload), side)
            <==> forall id :: NamedQuantity(payload, id) <= QuantityOf(t.items, id) - QuantityOf(ListOf(t, side), id)
  {
    MergeAllQuantities(ListOf(t, side), payload);
    var t' := Save(t, side, payload);
    assert ListOf(t', side) == MergeAll(ListOf(t, side), payload) && t'.items == t.items;
    if Within(t', side) {
      forall id
        ensures NamedQuantity(payload, id) <= QuantityOf(t.items, id) - QuantityOf(ListOf(t, side), id)
      {
        assert QuantityOf(ListOf(t', side), id) <= QuantityOf(t'.items, id);
      }
    }
  }

  lemma SaveStaysWithin(t: Transaction, side: Side, payload: seq<CartItem>)
    requires Distinct(payload) && Within(t, side)
    requires side == RefundedSide || CaptureSafe(t)
    ensures Within(Save(t, side, payload), side)
  {
    if PayloadAccepted(t, side, payload) {
      forall id ensures NamedQuantity(payload, id) <= QuantityOf(t.items, id) - QuantityOf(ListOf(t, side), id) {
        AcceptedPayload(t, side, payload, id);
      }
      SaveExactlyWithin(t, side, payload);
    }
  }

  lemma {:induction false} FoundHasIdentifier(items: seq<CartItem>, id: string)
    requires FindItem(items, id).Some?
    ensures FindItem(items, id).value.identifier == id
  {
    if items[0].identifier != id {
      FoundHasIdentifier(items[1..], id);
    }
  }

  /** A line that is accepted and captures too much, of an item with a negative refunded quantity. */
  lemma UnsafeCapture(t: Transaction, id: string) returns (line: CartItem)
    requires id != "" && FindItem(t.items, id).Some?
    requires QuantityOf(t.capturedItems, id) > 0 && QuantityOf(t.refundedItems, id) < 0
    ensures Distinct([line]) && PayloadAccepted(t, CapturedSide, [line])
    ensures !Within(Save(t, CapturedSide, [line]), CapturedSide)
  {
    var item := FindItem(t.items, id).value;
    FoundHasIdentifier(t.items, id);
    var allowed := item.quantity - QuantityOf(t.capturedItems, id) - QuantityOf(t.refundedItems, id);
    line := item.(quantity := if allowed <= item.quantity then allowed else item.quantity);
    assert ItemAccepted(t, line, ShippingGoods);
    assert [line][..0] == [];
    assert NamedQuantity([line], id) == line.quantity;
    SaveExactlyWithin(t, CapturedSide, [line]);
  }

  /**
    From a state within the purchase: every accepted capture of distinct identifiers stays within it
    exactly when no captured item has a negative refunded quantity.
  */
  lemma CaptureSafeExactly(t: Transaction)
    requires Within(t, CapturedSide)
    ensures (forall payload | Distinct(payload) && PayloadAccepted(t, CapturedSide, payload) ::
               Within(Save(t, CapturedSide, payload), CapturedSide))
            <==> CaptureSafe(t)
  {
    if CaptureSafe(t) {
      forall payload | Distinct(payload) && PayloadAccepted(t, CapturedSide, payload)
        ensures Within(Save(t, CapturedSide, payload), CapturedSide)
      {
        SaveStaysWithin(t, CapturedSide, payload);
      }
    } else {
      var id :| id != "" && FindItem(t.items, id).Some? && QuantityOf(t.capturedItems, id) > 0
                && QuantityOf(t.refundedItems, id) < 0;
      var line := UnsafeCapture(t, id);
    }
  }

  lemma {:induction false} SavesKeepTheRest(t: Transaction, saves: seq<(Side, seq<CartItem>)>)
    ensures RunSaves(t, saves).items == t.items
    ensures Distinct(t.capturedItems) ==> Distinct(RunSaves(t, saves).capturedItems)
    ensures Distinct(t.refundedItems) ==> Distinct(RunSaves(t, saves).refundedItems)
  {
    if saves != [] {
      SavesKeepTheRest(t, saves[..|saves| - 1]);
      var last := saves[|saves| - 1];
      MergeAllQuantities(ListOf(RunSaves(t, saves[..|saves| - 1]), last.0), last.1);
    }
  }

  /**
    In every run of captures and refunds whose payloads have distinct identifiers, the refunded
    quantity of an item never exceeds the purchased one, whatever the signs of the quantities are.
  */
  lemma {:induction false} RefundedStaysWithin(t: Transaction, saves: seq<(Side, seq<CartItem>)>)
    requires Within(t, RefundedSide)
    requires forall s | s in saves :: Distinct(s.1)
    ensures Within(RunSaves(t, saves), RefundedSide)
  {
    if saves != [] {
      var before, last := RunSaves(t, saves[..|saves| - 1]), saves[|saves| - 1];
      RefundedStaysWithin(t, saves[..|saves| - 1]);
      assert Distinct(last.1);
      if last.0 == RefundedSide {
        SaveStaysWithin(before, RefundedSide, last.1);
      } else {
        assert Save(before, last.0, last.1).refundedItems == before.refundedItems;
        assert Save(before, last.0, last.1).items == before.items;
      }
    }
  }

  /** Every capture is made in a state that is safe for captures. */
  ghost predicate SafeRun(t: Transaction, saves: seq<(Side, seq<CartItem>)>) {
    saves == [] ||
    (&& SafeRun(t, saves[..|saves| - 1])
     && (saves[|saves| - 1].0 == CapturedSide ==> CaptureSafe(RunSaves(t, saves[..|saves| - 1]))))
  }

  /** The captured quantity neither, in every run that captures in safe states only. */
  lemma {:induction false} CapturedStaysWithin(t: Transaction, saves: seq<(Side, seq<CartItem>)>)
    requires Within(t, CapturedSide) && SafeRun(t, saves)
    requires forall s | s in saves :: Distinct(s.1)
    ensures Within(RunSaves(t, saves), CapturedSide)
  {
    if saves != [] {
      var before, last := RunSaves(t, saves[..|saves| - 1]), saves[|saves| - 1];
      CapturedStaysWithin(t, saves[..|saves| - 1]);
      assert Distinct(last.1);
      if last.0 == CapturedSide {
        SaveStaysWithin(before, CapturedSide, last.1);
      } else {
        assert Save(before, last.0, last.1).capturedItems == before.capturedItems;
        assert Save(before, last.0, last.1).items == before.items;
      }
    }
  }

  /** A run whose refund lines are not negative is safe. */
  lemma {:induction false} PlainRefundsAreSafe(t: Transaction, saves: seq<(Side, seq<CartItem>)>)
    requires NothingTakenBack(t)
    requires forall s | s in saves :: s.0 == RefundedSide ==> forall line | line in s.1 :: line.quantity >= 0
    ensures SafeRun(t, saves) && NothingTakenBack(RunSaves(t, saves))
  {
    if saves != [] {
      var before, last := RunSaves(t, saves[..|saves| - 1]), saves[|saves| - 1];
      PlainRefundsAreSafe(t, saves[..|saves| - 1]);
      assert last in saves;
      if last.0 == CapturedSide {
        assert Save(before, last.0, last.1).refundedItems == before.refundedItems;
      } else {
        RefundAddsUp(before, last.1);
      }
    }
  }

  lemma RefundAddsUp(t: Transaction, payload: seq<CartItem>)
    requires NothingTakenBack(t)
    requires forall line | line in payload :: line.quantity >= 0
    ensures NothingTakenBack(Save(t, RefundedSide, payload))
  {
    MergeAllQuantities(t.refundedItems, payload);
    forall id ensures NamedQuantity(payload, id) >= 0 {
      NamedQuantitySign(payload, id);
    }
  }

  /** One line of an item that is bought, to or from an empty or one-item list. */
  lemma SaveOneLine(t: Transaction, side: Side, line: CartItem)
    requires PayloadAccepted(t, side, [line])
    requires ListOf(t, side) == [] || (|ListOf(t, side)| == 1 && ListOf(t, side)[0].identifier == line.identifier)
    ensures Save(t, side, [line]) ==
            WithList(t, side, if ListOf(t, side) == [] then [line]
                              else [ListOf(t, side)[0].(quantity := ListOf(t, side)[0].quantity + line.quantity)])
  {
    assert [line][..0] == [];
    assert MergeAll(ListOf(t, side), []) == ListOf(t, side);
    assert MergeAll(ListOf(t, side), [line]) == Merge(ListOf(t, side), line);
  }

  /** A refund of minus one piece makes room for capturing two of one, each line accepted on its own. */
  lemma NegativeRefundLetsCapturesExceed(t: Transaction, item: CartItem)
    requires t.items == [item] && t.refundedItems == [] && t.capturedItems == []
    requires item.identifier != "" && item.quantity == 1
    ensures var t1 := Save(t, RefundedSide, [item.(quantity := -1)]);
            var t2 := Save(t1, CapturedSide, [item]);
            var t3 := Save(t2, CapturedSide, [item]);
            && PayloadAccepted(t, RefundedSide, [item.(quantity := -1)])
            && PayloadAccepted(t1, CapturedSide, [item]) && PayloadAccepted(t2, CapturedSide, [item])
            && Within(t2, CapturedSide) && !CaptureSafe(t2)
            && QuantityOf(t3.capturedItems, item.identifier) == 2 && !Within(t3, CapturedSide)
  {
    var back := item.(quantity := -1);
    SaveOneLine(t, RefundedSide, back);
    var t1 := t.(refundedItems := [back]);
    SaveOneLine(t1, CapturedSide, item);
    var t2 := t1.(capturedItems := [item]);
    SaveOneLine(t2, CapturedSide, item);
    var t3 := t2.(capturedItems := [item.(quantity := 2)]);
    assert Save(t2, CapturedSide, [item]) == t3;
    forall id ensures QuantityOf(t2.capturedItems, id) <= QuantityOf(t2.items, id) {
    }
    assert FindItem(t2.items, item.identifier) == Some(item);
    assert QuantityOf(ListOf(t3, CapturedSide), item.identifier) == 2;
    assert QuantityOf(t3.items, item.identifier) == 1;
  }

  /** Two lines of one identifier are each accepted and together refund more than was purchased. */
  lemma RepeatedLinesExceed(t: Transaction, item: CartItem)
    requires t.items == [item] && t.refundedItems == [] && t.capturedItems == []
    requires item.identifier != "" && item.quantity == 1
    ensures PayloadAccepted(t, RefundedSide, [item, item])
    ensures !Within(Save(t, RefundedSide, [item, item]), RefundedSide)
  {
    assert FindItem(t.items, item.identifier) == Some(item);
    assert [item, item][..1] == [item];
    assert [item][..0] == [];
    assert NamedQuantity([item], item.identifier) == 1;
    assert NamedQuantity([item, item], item.identifier) == 2;
    assert QuantityOf(t.refundedItems, item.identifier) == 0;
    SaveExactlyWithin(t, RefundedSide, [item, item]);
  }

  /** What is offered for refund and what was refunded make up the purchase, item by item. */
  lemma {:induction false} AvailableComplements(items: seq<CartItem>, refunded: seq<CartItem>, k: nat)
    requires Distinct(items) && k < |items|
    requires QuantityOf(refunded, items[k].identifier) <= items[k].quantity
    ensures AvailableCount(Available(items, refunded), items[k].identifier)
            + QuantityOf(refunded, items[k].identifier) == items[k].quantity
  {
    var prefix, last := items[..|items| - 1], items[|items| - 1];
    CountAppend(Available(prefix, refunded), last.identifier,
                last.quantity - QuantityOf(refunded, last.identifier), items[k].identifier);
    if k < |items| - 1 {
      AvailableComplements(prefix, refunded, k);
      assert items[k].identifier != last.identifier;
    } else {
      NotOffered(prefix, refunded, last.identifier);
    }
  }

  lemma CountAppend(available: seq<(string, int)>, identifier: string, count: int, wanted: string)
    ensures AvailableCount(available + [(identifier, count)], wanted) ==
            if identifier == wanted then count else AvailableCount(available, wanted)
    ensures available + [] == available
  {
    assert (available + [(identifier, count)])[..|available|] == available;
  }

  lemma {:induction false} NotOffered(items: seq<CartItem>, refunded: seq<CartItem>, identifier: string)
    requires forall i :: 0 <= i < |items| ==> items[i].identifier != identifier
    ensures AvailableCount(Available(items, refunded), identifier) == 0
  {
    if items != [] {
      var last := items[|items| - 1];
      NotOffered(items[..|items| - 1], refunded, identifier);
      CountAppend(Available(items[..|items| - 1], refunded), last.identifier,
                  last.quantity - QuantityOf(refunded, last.identifier), identifier);
    }
  }

  /** In every state a run of saves reaches, what is offered plus what was refunded is what was purchased. */
  lemma OfferedPlusRefunded(t: Transaction, saves: seq<(Side, seq<CartItem>)>, k: nat)
    requires Within(t, RefundedSide) && Distinct(t.items) && k < |t.items|
    requires forall s | s in saves :: Distinct(s.1)
    ensures var t' := RunSaves(t, saves);
            AvailableCount(Available(t'.items, t'.refundedItems), t.items[k].identifier)
            + QuantityOf(t'.refundedItems, t.items[k].identifier) == t.items[k].quantity
  {
    RefundedStaysWithin(t, saves);
    SavesKeepTheRest(t, saves);
    FindItemIs(t.items, k);
    var t' := RunSaves(t, saves);
    assert QuantityOf(ListOf(t', RefundedSide), t.items[k].identifier) <= QuantityOf(t'.items, t.items[k].identifier);
    AvailableComplements(t'.items, t'.refundedItems, k);
  }
}
