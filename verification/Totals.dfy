/**
  The totals shown above a list: Elastic sums packed totals, Mongo sums stored ones, and both convert
  the sums of their currency buckets through the exchange calculator.
*/
module Totals {
  import opened Currency
  import opened Money
  import opened Wrappers

  /** What the totals read of a matched document. */
  datatype Priced = Priced(currency: string, total: real)

  datatype Bucket = Bucket(key: string, members: seq<Priced>)

  function Packed(d: Priced): Priced {
    d.(total := Trunc(d.total * 100.0) as real)
  }

  function PackedAll(docs: seq<Priced>): seq<Priced> {
    seq(|docs|, i requires 0 <= i < |docs| => Packed(docs[i]))
  }

  function Sum(docs: seq<Priced>): real {
    if docs == [] then 0.0 else Sum(docs[..|docs| - 1]) + docs[|docs| - 1].total
  }

  function ElasticTotal(docs: seq<Priced>): real {
    var value := Sum(PackedAll(docs));
    if value != 0.0 then value / 100.0 else 0.0
  }

  function MongoTotal(docs: seq<Priced>): real {
    Sum(docs)
  }

  /** The sum of a result is that of its parts. */
  lemma {:induction false} SumAdds(a: seq<Priced>, b: seq<Priced>)
    ensures Sum(a + b) == Sum(a) + Sum(b)
    ensures |b| == 1 ==> Sum(b) == b[0].total
  {
    if b == [] {
      assert a + b == a;
    } else {
      SumAdds(a, b[..|b| - 1]);
      assert (a + b)[..|a + b| - 1] == a + b[..|b| - 1];
    }
  }

  /** Truncation moves the sum by less than a cent a document, and never up where no total is negative. */
  lemma {:induction false} SingleCurrencyTotals(docs: seq<Priced>)
    ensures if docs == [] then ElasticTotal(docs) == MongoTotal(docs)
            else |docs| as real / -100.0 < ElasticTotal(docs) - MongoTotal(docs) < |docs| as real / 100.0
    ensures (forall d | d in docs :: d.total >= 0.0) ==> ElasticTotal(docs) <= MongoTotal(docs)
  {
    if docs != [] {
      var prefix, last := docs[..|docs| - 1], docs[|docs| - 1];
      SingleCurrencyTotals(prefix);
      assert PackedAll(docs)[..|docs| - 1] == PackedAll(prefix);
      assert last in docs;
      TruncationError(last.total);
    }
  }

  lemma {:induction false} SingleCurrencyWholeCents(docs: seq<Priced>)
    requires forall d | d in docs :: WholeCents(d.total)
    ensures Sum(PackedAll(docs)) == 100.0 * Sum(docs)
    ensures ElasticTotal(docs) == MongoTotal(docs)
  {
    if docs != [] {
      var prefix, last := docs[..|docs| - 1], docs[|docs| - 1];
      SingleCurrencyWholeCents(prefix);
      assert PackedAll(docs)[..|docs| - 1] == PackedAll(prefix);
      assert last in docs;
      TruncationError(last.total);
    }
  }

  // ---- several currencies ----

  /** An unknown or zero rate leaves the amount as it is. */
  function Divisor(service: Service, code: string): real {
    var rate := RateOf(service, code);
    if rate.Some? && rate.value != 0.0 then rate.value else 1.0
  }

  /** toFixed(2), for both signs. */
  function ToFixed(x: real): real {
    if x >= 0.0 then Cents((x * 100.0 + 0.5).Floor) else -Cents((-x * 100.0 + 0.5).Floor)
  }

  function BucketsSum(service: Service, buckets: seq<(string, real)>): real {
    if buckets == [] then 0.0
    else
      var last := buckets[|buckets| - 1];
      BucketsSum(service, buckets[..|buckets| - 1]) + last.1 / Divisor(service, last.0)
  }

  /** The loop both engines run over their buckets. */
  method TotalPerCurrency(calculator: ExchangeCalculator, buckets: seq<(string, real)>) returns (total: real)
    modifies calculator
    ensures old(Reliable(calculator.service, calculator.Now())) ==>
              && Reliable(calculator.service, calculator.Now())
              && total == BucketsSum(calculator.service, buckets)
  {
    total := 0.0;
    for i := 0 to |buckets|
      invariant old(Reliable(calculator.service, calculator.Now())) ==>
                  && Reliable(calculator.service, calculator.Now())
                  && total == BucketsSum(calculator.service, buckets[..i])
    {
      var rate := calculator.GetCurrencyExchangeRate(buckets[i].0);
      assert buckets[..i + 1][..i] == buckets[..i];
      if rate.Some? && rate.value != 0.0 {
        total := total + buckets[i].1 / rate.value;
      } else {
        total := total + buckets[i].1;
      }
    }
    assert buckets[..|buckets|] == buckets;
  }

  /** What the engines convert the sum of their buckets to, before it is rounded to two decimals. */
  function MongoAmount(bucketsSum: real, rate: real): real {
    bucketsSum * rate
  }

  function ElasticAmount(bucketsSum: real, rate: real): real {
    MongoAmount(bucketsSum, rate) / 100.0
  }

  method ConvertTotal(calculator: ExchangeCalculator, total: real, currency: string) returns (r: real)
    modifies calculator
    ensures old(Reliable(calculator.service, calculator.Now()))
            ==> r == MongoAmount(total, Divisor(calculator.service, currency))
  {
    var rate := calculator.GetCurrencyExchangeRate(currency);
    if rate.Some? && rate.value != 0.0 {
      r := total * rate.value;
    } else {
      r := total;
      assert rate == RateOf(calculator.service, currency) ==> Divisor(calculator.service, currency) == 1.0;
    }
  }

  method ElasticMultiCurrency(service: Service, buckets: seq<(string, real)>, currency: string) returns (r: real)
    ensures Faithful(service) ==> r == ToFixed(ElasticAmount(BucketsSum(service, buckets), Divisor(service, currency)))
  {
    var calculator := new ExchangeCalculator(service);
    var totalPerCurrency := TotalPerCurrency(calculator, buckets);
    var converted := ConvertTotal(calculator, totalPerCurrency, currency);
    r := ToFixed(converted / 100.0);
  }

  method MongoMultiCurrency(service: Service, buckets: seq<(string, real)>, currency: string) returns (r: real)
    ensures Faithful(service) ==> r == ToFixed(MongoAmount(BucketsSum(service, buckets), Divisor(service, currency)))
  {
    var calculator := new ExchangeCalculator(service);
    var totalPerCurrency := TotalPerCurrency(calculator, buckets);
    var converted := ConvertTotal(calculator, totalPerCurrency, currency);
    r := ToFixed(converted);
  }

  /** The reference: each document converted on its own. */
  function Converted(service: Service, docs: seq<Priced>): real {
    if docs == [] then 0.0
    else
      var last := docs[|docs| - 1];
      Converted(service, docs[..|docs| - 1]) + last.total / Divisor(service, last.currency)
  }

  function Flatten(buckets: seq<Bucket>): seq<Priced> {
    if buckets == [] then [] else Flatten(buckets[..|buckets| - 1]) + buckets[|buckets| - 1].members
  }

  function Summed(buckets: seq<Bucket>): seq<(string, real)> {
    seq(|buckets|, i requires 0 <= i < |buckets| => (buckets[i].key, Sum(buckets[i].members)))
  }

  /**
    Buckets over a result: every document in one of them, under its own currency up to letter case
    (the Elastic terms are lower-cased), in any order.
  */
  ghost predicate Partitions(buckets: seq<Bucket>, docs: seq<Priced>) {
    && multiset(Flatten(buckets)) == multiset(docs)
    && forall b | b in buckets :: forall d | d in b.members :: Upper(d.currency) == Upper(b.key)
  }

  lemma {:induction false} ConvertedAppend(service: Service, a: seq<Priced>, b: seq<Priced>)
    ensures Converted(service, a + b) == Converted(service, a) + Converted(service, b)
  {
    if b == [] {
      assert a + b == a;
    } else {
      ConvertedAppend(service, a, b[..|b| - 1]);
      assert (a + b)[..|a + b| - 1] == a + b[..|b| - 1];
    }
  }

  lemma {:induction false} ConvertedInAnyOrder(service: Service, a: seq<Priced>, b: seq<Priced>)
    requires multiset(a) == multiset(b)
    ensures Converted(service, a) == Converted(service, b)
  {
    if a == [] {
      assert |multiset(b)| == 0;
    } else {
      var last := a[|a| - 1];
      assert a == a[..|a| - 1] + [last];
      assert last in multiset(b);
      var k :| 0 <= k < |b| && b[k] == last;
      assert b == b[..k] + [last] + b[k + 1..];
      var rest := b[..k] + b[k + 1..];
      assert multiset(a[..|a| - 1]) == multiset(a) - multiset{last};
      assert multiset(b) == multiset(b[..k] + [last] + b[k + 1..]) == multiset(rest) + multiset{last};
      assert multiset(rest) == multiset(b) - multiset{last};
      ConvertedInAnyOrder(service, a[..|a| - 1], rest);
      ConvertedAppend(service, b[..k], b[k + 1..]);
      ConvertedAppend(service, b[..k] + [last], b[k + 1..]);
      ConvertedAppend(service, b[..k], [last]);
      ConvertedAppend(service, a[..|a| - 1], [last]);
    }
  }

  lemma AddQuotients(a: real, b: real, r: real)
    requires r != 0.0
    ensures (a + b) / r == a / r + b / r
  {
  }

  lemma DivideAndMultiply(a: real, r: real, quotient: real)
    requires r != 0.0 && quotient == a / r
    ensures quotient * r == a
  {
  }

  lemma {:induction false} OneCurrency(service: Service, docs: seq<Priced>, key: string)
    requires forall d | d in docs :: Upper(d.currency) == Upper(key)
    ensures Converted(service, docs) == Sum(docs) / Divisor(service, key)
  {
    if docs != [] {
      var prefix, last := docs[..|docs| - 1], docs[|docs| - 1];
      OneCurrency(service, prefix, key);
      assert last in docs;
      AddQuotients(Sum(prefix), last.total, Divisor(service, key));
    }
  }

  lemma {:induction false} BucketsConvert(service: Service, buckets: seq<Bucket>)
    requires forall b | b in buckets :: forall d | d in b.members :: Upper(d.currency) == Upper(b.key)
    ensures BucketsSum(service, Summed(buckets)) == Converted(service, Flatten(buckets))
  {
    if buckets != [] {
      var prefix, last := buckets[..|buckets| - 1], buckets[|buckets| - 1];
      BucketsConvert(service, prefix);
      assert Summed(buckets)[..|buckets| - 1] == Summed(prefix);
      assert last in buckets;
      OneCurrency(service, last.members, last.key);
      ConvertedAppend(service, Flatten(prefix), last.members);
    }
  }

  /** However the documents are bucketed, the loop computes the per-document conversion. */
  lemma BucketingDoesNotMatter(service: Service, buckets: seq<Bucket>, docs: seq<Priced>)
    requires Partitions(buckets, docs)
    ensures BucketsSum(service, Summed(buckets)) == Converted(service, docs)
  {
    BucketsConvert(service, buckets);
    ConvertedInAnyOrder(service, Flatten(buckets), docs);
  }

  lemma {:induction false} PackedConverted(service: Service, docs: seq<Priced>)
    requires forall d | d in docs :: WholeCents(d.total)
    ensures Converted(service, PackedAll(docs)) == 100.0 * Converted(service, docs)
  {
    if docs != [] {
      var prefix, last := docs[..|docs| - 1], docs[|docs| - 1];
      PackedConverted(service, prefix);
      assert PackedAll(docs)[..|docs| - 1] == PackedAll(prefix);
      assert last in docs;
      TruncationError(last.total);
      HundredTimes(last.total, Divisor(service, last.currency));
    }
  }

  lemma HundredTimes(a: real, r: real)
    requires r != 0.0
    ensures (100.0 * a) / r == 100.0 * (a / r)
  {
  }

  /**
    Over whole-cent totals the two engines show the same multi-currency amount, whatever buckets each
    of them forms: the per-document conversion, which both then round the same way.
  */
  lemma MultiCurrencyTotalsAgree(service: Service, docs: seq<Priced>, elastic: seq<Bucket>, mongo: seq<Bucket>,
                                 currency: string) returns (reference: real)
    requires forall d | d in docs :: WholeCents(d.total)
    requires Partitions(elastic, PackedAll(docs)) && Partitions(mongo, docs)
    ensures reference == Converted(service, docs)
    ensures var rate := Divisor(service, currency);
            && ElasticAmount(BucketsSum(service, Summed(elastic)), rate) == MongoAmount(reference, rate)
            && MongoAmount(BucketsSum(service, Summed(mongo)), rate) == MongoAmount(reference, rate)
  {
    reference := EngineSums(service, docs, elastic, mongo);
    CentsCancel(reference, Divisor(service, currency), BucketsSum(service, Summed(elastic)));
  }

  lemma EngineSums(service: Service, docs: seq<Priced>, elastic: seq<Bucket>, mongo: seq<Bucket>)
    returns (reference: real)
    requires forall d | d in docs :: WholeCents(d.total)
    requires Partitions(elastic, PackedAll(docs)) && Partitions(mongo, docs)
    ensures reference == Converted(service, docs)
    ensures BucketsSum(service, Summed(elastic)) == 100.0 * reference
    ensures BucketsSum(service, Summed(mongo)) == reference
  {
    reference := Converted(service, docs);
    BucketingDoesNotMatter(service, elastic, PackedAll(docs));
    BucketingDoesNotMatter(service, mongo, docs);
    PackedConverted(service, docs);
  }

  lemma CentsCancel(c: real, rate: real, hundredfold: real)
    requires hundredfold == 100.0 * c
    ensures ElasticAmount(hundredfold, rate) == MongoAmount(c, rate)
  {
  }

  lemma ToFixedWhole(x: real)
    requires WholeCents(x)
    ensures ToFixed(x) == x
  {
    var k := (x * 100.0).Floor;
    assert x * 100.0 == k as real;
    assert (k as real + 0.5).Floor == k && (-(k as real) + 0.5).Floor == -k;
  }

  lemma {:induction false} SumWhole(docs: seq<Priced>)
    requires forall d | d in docs :: WholeCents(d.total)
    ensures WholeCents(Sum(docs))
  {
    if docs != [] {
      var prefix, last := docs[..|docs| - 1], docs[|docs| - 1];
      SumWhole(prefix);
      assert last in docs;
      WholePlusWhole(Sum(prefix), last.total);
    }
  }

  /** What a document counts: its total over the rate the service has for its currency, if it has one that is not zero. */
  lemma OneConverted(service: Service, d: Priced, capitals: string)
    requires SameButCase(d.currency, capitals) && InCapitals(capitals)
    ensures Converted(service, [d]) ==
            if service(capitals).Some? && service(capitals).value.rate != 0.0
            then d.total / service(capitals).value.rate else d.total
  {
    RateInCapitals(service, d.currency, capitals);
    assert [d][..0] == [];
  }

  lemma ToFixedError(x: real)
    ensures -0.005 <= ToFixed(x) - x <= 0.005
    ensures exists k: int :: ToFixed(x) == Cents(k)
  {
    if x >= 0.0 {
      var y := x * 100.0 + 0.5;
      assert y - 1.0 < y.Floor as real <= y;
      assert ToFixed(x) == Cents(y.Floor);
    } else {
      var y := -x * 100.0 + 0.5;
      assert y - 1.0 < y.Floor as real <= y;
      assert ToFixed(x) == Cents(-y.Floor);
    }
  }

  /**
    The amount both engines show over whole-cent totals: one and the same, within half a cent of the
    per-document conversion times the rate of the target currency.
  */
  lemma ShownAmount(service: Service, docs: seq<Priced>, elastic: seq<Bucket>, mongo: seq<Bucket>, currency: string,
                    elasticSum: real, mongoSum: real, perDocument: real, rate: real)
    requires forall d | d in docs :: WholeCents(d.total)
    requires Partitions(elastic, PackedAll(docs)) && Partitions(mongo, docs)
    requires elasticSum == BucketsSum(service, Summed(elastic)) && mongoSum == BucketsSum(service, Summed(mongo))
    requires perDocument == Converted(service, docs) && rate == Divisor(service, currency)
    ensures ToFixed(ElasticAmount(elasticSum, rate)) == ToFixed(MongoAmount(mongoSum, rate))
    ensures -0.005 <= ToFixed(ElasticAmount(elasticSum, rate)) - perDocument * rate <= 0.005
  {
    var reference := EngineSums(service, docs, elastic, mongo);
    ShownAlike(elasticSum, mongoSum, perDocument, rate);
  }

  lemma ShownAlike(elastic: real, mongo: real, reference: real, rate: real)
    requires elastic == 100.0 * reference && mongo == reference
    ensures ToFixed(ElasticAmount(elastic, rate)) == ToFixed(MongoAmount(mongo, rate))
    ensures -0.005 <= ToFixed(ElasticAmount(elastic, rate)) - reference * rate <= 0.005
  {
    CentsCancel(reference, rate, elastic);
    AmountIsProduct(reference, rate);
    ToFixedError(MongoAmount(reference, rate));
  }

  /** The rate of a currency: what the service answers in capitals, or one where that is nothing or zero. */
  lemma DivisorInCapitals(service: Service, currency: string, capitals: string)
    requires SameButCase(currency, capitals) && InCapitals(capitals)
    ensures Divisor(service, currency) == if service(capitals).Some? && service(capitals).value.rate != 0.0
                                          then service(capitals).value.rate else 1.0
  {
    RateInCapitals(service, currency, capitals);
  }

  lemma AmountIsProduct(sum: real, rate: real)
    ensures MongoAmount(sum, rate) == sum * rate
  {
  }

  /** Conversion cancels when every document is already in the target currency. */
  lemma SameCurrencyCancels(service: Service, docs: seq<Priced>, currency: string)
    requires forall d | d in docs :: Upper(d.currency) == Upper(currency)
    ensures Converted(service, docs) * Divisor(service, currency) == Sum(docs)
    ensures (forall d | d in docs :: WholeCents(d.total)) ==> ToFixed(Sum(docs)) == Sum(docs)
  {
    ConversionCancels(service, docs, currency);
    if forall d | d in docs :: WholeCents(d.total) {
      SumWhole(docs);
      ToFixedWhole(Sum(docs));
    }
  }

  lemma ConversionCancels(service: Service, docs: seq<Priced>, currency: string)
    requires forall d | d in docs :: Upper(d.currency) == Upper(currency)
    ensures Converted(service, docs) * Divisor(service, currency) == Sum(docs)
  {
    OneCurrency(service, docs, currency);
    DivideAndMultiply(Sum(docs), Divisor(service, currency), Converted(service, docs));
  }
}
