/**
  Search results over the running service: the Elastic query on the index against the Mongo query on
  the store.
*/
module Searching {
  import opened DoubleConverter
  import opened Filters
  import opened Money
  import opened QueryAgreement
  import opened Runs
  import opened Transactions
  import opened Worlds
  import opened Wrappers
  import E = ElasticCompiler
  import M = MongoCompiler

  const AMOUNTS: set<string> := {"amount", "total", "delivery_fee", "down_payment", "payment_fee"}

  const SEARCHED: set<string> :=
    {"uuid", "original_id", "currency", "type", "status", "specific_status", "created_at"} + AMOUNTS

  function Amount(x: Option<real>): Option<Value> {
    if x.Some? then Some(Num(x.value)) else None
  }

  function Words(x: Option<string>): Option<Value> {
    if x.Some? then Some(Text(x.value)) else None
  }

  function FieldOf(t: Transaction, field: string): Option<Value> {
    if field == "uuid" then Some(Text(t.uuid))
    else if field == "original_id" then Words(t.originalId)
    else if field == "currency" then Some(Text(t.currency))
    else if field == "type" then Some(Text(t.paymentType))
    else if field == "status" then Some(Text(StatusName(t.status)))
    else if field == "specific_status" then Words(t.specificStatus)
    else if field == "created_at" then (if t.createdAt.Some? then Some(When(t.createdAt.value)) else None)
    else if field == "amount" then Some(Num(t.amount))
    else if field == "total" then Some(Num(t.total))
    else if field == "delivery_fee" then Amount(t.deliveryFee)
    else if field == "down_payment" then Amount(t.downPayment)
    else if field == "payment_fee" then Amount(t.paymentFee)
    else None
  }

  /** The searched fields that a document has. */
  function Table(read: string -> Option<Value>): Doc {
    map f | f in SEARCHED && read(f).Some? :: read(f).value
  }

  /** The searchable fields of a transaction document. */
  function View(t: Transaction): Doc {
    Table(f => FieldOf(t, f))
  }

  /** What is searched under each name. */
  lemma SearchedFields(t: Transaction)
    ensures View(t).Keys <= {"uuid", "original_id", "currency", "type", "status", "specific_status", "created_at",
                             "amount", "total", "delivery_fee", "down_payment", "payment_fee"}
    ensures forall f | f in {"uuid", "currency", "type", "status", "amount", "total"} :: f in View(t)
    ensures View(t)["amount"] == Num(t.amount) && View(t)["total"] == Num(t.total)
    ensures View(t)["uuid"] == Text(t.uuid) && View(t)["currency"] == Text(t.currency)
    ensures View(t)["type"] == Text(t.paymentType) && View(t)["status"] == Text(StatusName(t.status))
    ensures FieldIs(t, "delivery_fee", t.deliveryFee, x => Num(x))
    ensures FieldIs(t, "down_payment", t.downPayment, x => Num(x))
    ensures FieldIs(t, "payment_fee", t.paymentFee, x => Num(x))
    ensures FieldIs(t, "original_id", t.originalId, x => Text(x))
    ensures FieldIs(t, "specific_status", t.specificStatus, x => Text(x))
    ensures FieldIs(t, "created_at", t.createdAt, x => When(x))
  {
  }

  /** A field that is there when the document has it. */
  predicate FieldIs<T>(t: Transaction, field: string, x: Option<T>, value: T -> Value) {
    (field in View(t) <==> x.Some?) && (x.Some? ==> View(t)[field] == value(x.value))
  }

  function Packed(field: string, v: Option<Value>): Option<Value> {
    if v.Some? then Some(PackValue(field, v.value)) else None
  }

  lemma FieldOfPacked(t: Transaction, field: string)
    requires field in SEARCHED
    ensures FieldOf(Pack(t), field) == Packed(field, FieldOf(t, field))
  {
    if field in AMOUNTS {
      AmountPacked(t, field);
    }
  }

  /** A missing or zero amount is left as it is, which is what truncating zero gives. */
  lemma AmountPacked(t: Transaction, field: string)
    requires field in AMOUNTS
    ensures FieldOf(Pack(t), field) == Packed(field, FieldOf(t, field))
  {
    assert IsLong(field);
  }

  lemma TablePacked(before: string -> Option<Value>, after: string -> Option<Value>)
    requires forall f | f in SEARCHED :: after(f) == Packed(f, before(f))
    ensures Table(after) == PackDoc(Table(before))
  {
  }

  /** Packing a document packs what is searched of it. */
  lemma ViewOfPacked(t: Transaction)
    ensures View(Pack(t)) == PackDoc(View(t))
  {
    forall f | f in SEARCHED ensures FieldOf(Pack(t), f) == Packed(f, FieldOf(t, f)) {
      FieldOfPacked(t, f);
    }
    TablePacked(f => FieldOf(t, f), f => FieldOf(Pack(t), f));
  }

  /** The amounts of the document itself are whole cents. */
  predicate WholeCentAmounts(t: Transaction) {
    && WholeCents(t.amount) && WholeCents(t.total)
    && FieldHolds(t.deliveryFee, WholeCents) && FieldHolds(t.downPayment, WholeCents)
    && FieldHolds(t.paymentFee, WholeCents)
  }

  lemma WholeCentView(t: Transaction)
    requires WholeCentAmounts(t)
    ensures WholeCentDoc(View(t))
  {
    forall f | f in View(t) && IsLong(f) ensures View(t)[f].Num? && WholeCents(View(t)[f].n) {
      LongFields(f);
    }
  }

  lemma LongFields(f: string)
    requires f in SEARCHED && IsLong(f)
    ensures f in AMOUNTS
  {
  }

  function ElasticHits(w: World, r: Readings, filters: FieldFilters): set<string> {
    set u | u in w.index && E.Accepts(r, E.QueryOf(r, filters), View(w.index[u]))
  }

  function MongoHits(w: World, r: Readings, filters: FieldFilters): set<string> {
    set u | u in w.store && M.Accepts(r, M.QueryOf(r, filters), View(w.store[u]))
  }

  lemma ViewFollows(w: World, u: string)
    requires Follows(w) && u in w.store
    ensures View(w.index[u]) == PackDoc(View(w.store[u]))
  {
    ViewOfPacked(w.store[u]);
    var a, b := w.index[u], Pack(w.store[u]);
    assert a.(shippingProcessed := false) == b.(shippingProcessed := false);
    forall f ensures FieldOf(a, f) == FieldOf(b, f) {
      assert FieldOf(a, f) == FieldOf(a.(shippingProcessed := false), f);
      assert FieldOf(b, f) == FieldOf(b.(shippingProcessed := false), f);
    }
  }

  /**
    After any run of the service, over documents with whole-cent amounts, a search in Elastic finds
    only what a search in Mongo finds, and on the agreeing conditions the two find the same documents.
  */
  lemma SearchesAgreeAfterAnyRun(w: World, steps: seq<Step>, r: Readings, filters: FieldFilters)
    requires Follows(w)
    requires forall u | u in Run(w, steps).store :: WholeCentAmounts(Run(w, steps).store[u])
    requires forall p | p in filters :: forall f | f in p.1 :: Comparable(r, p.0, f)
    ensures ElasticHits(Run(w, steps), r, filters) <= MongoHits(Run(w, steps), r, filters)
    ensures (forall p | p in filters :: forall f | f in p.1 :: Agreeing(r, p.0, f))
            ==> ElasticHits(Run(w, steps), r, filters) == MongoHits(Run(w, steps), r, filters)
  {
    IndexFollowsStore(w, steps);
    var w' := Run(w, steps);
    forall u | u in w'.store
      ensures u in ElasticHits(w', r, filters) ==> u in MongoHits(w', r, filters)
      ensures (forall p | p in filters :: forall f | f in p.1 :: Agreeing(r, p.0, f))
              ==> (u in MongoHits(w', r, filters) ==> u in ElasticHits(w', r, filters))
    {
      ViewFollows(w', u);
      WholeCentView(w'.store[u]);
      CompilersAgree(r, filters, View(w'.store[u]));
    }
    assert w'.index.Keys == w'.store.Keys;
  }
}
