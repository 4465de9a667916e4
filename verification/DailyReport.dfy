/**
  The daily report: totals of today and of before today, joined per currency and, within a currency,
  per payment option.  The rows are grown and updated in place.
*/
module DailyReport {
  import opened Currency
  import opened Wrappers

  /** What the report reads of a transaction; fromToday says whether it was created since the begin date. */
  datatype Doc = Doc(currency: string, paymentType: string, total: real, fromToday: bool)

  datatype OptionRow = OptionRow(paymentOption: string, todayTotal: real, overallTotal: real)

  datatype Row = Row(
    currency: string,
    exchangeRate: Option<real>,
    todayTotal: real,
    overallTotal: real,
    paymentOption: seq<OptionRow>)

  /** The groups an aggregation answers with: a key and the sum of totals under it. */
  type Groups<K> = seq<(K, real)>

  function Lookup<K(==)>(groups: Groups<K>, key: K): real {
    if groups == [] then 0.0
    else if groups[|groups| - 1].0 == key then groups[|groups| - 1].1
    else Lookup(groups[..|groups| - 1], key)
  }

  predicate Keyed<K(==)>(groups: Groups<K>, key: K) {
    exists i :: 0 <= i < |groups| && groups[i].0 == key
  }

  predicate DistinctKeys<K(==)>(groups: Groups<K>) {
    forall i, j :: 0 <= i < j < |groups| ==> groups[i].0 != groups[j].0
  }

  function CurrencySum(docs: seq<Doc>, today: bool, currency: string): real {
    if docs == [] then 0.0
    else
      var last := docs[|docs| - 1];
      CurrencySum(docs[..|docs| - 1], today, currency)
      + if last.fromToday == today && last.currency == currency then last.total else 0.0
  }

  function OptionSum(docs: seq<Doc>, today: bool, currency: string, paymentType: string): real {
    if docs == [] then 0.0
    else
      var last := docs[|docs| - 1];
      OptionSum(docs[..|docs| - 1], today, currency, paymentType)
      + if last.fromToday == today && last.currency == currency && last.paymentType == paymentType
        then last.total else 0.0
  }

  /** The sums of a result are those of its parts; one document counts for its own day, currency and type. */
  lemma {:induction false} SumsAdd(a: seq<Doc>, b: seq<Doc>, today: bool, currency: string, paymentType: string)
    ensures CurrencySum(a + b, today, currency) == CurrencySum(a, today, currency) + CurrencySum(b, today, currency)
    ensures OptionSum(a + b, today, currency, paymentType) ==
            OptionSum(a, today, currency, paymentType) + OptionSum(b, today, currency, paymentType)
    ensures |b| == 1 ==>
              && CurrencySum(b, today, currency) ==
                 (if b[0].currency == currency && b[0].fromToday == today then b[0].total else 0.0)
              && OptionSum(b, today, currency, paymentType) ==
                 if b[0].currency == currency && b[0].paymentType == paymentType && b[0].fromToday == today
                 then b[0].total else 0.0
  {
    if b == [] {
      assert a + b == a;
    } else {
      SumsAdd(a, b[..|b| - 1], today, currency, paymentType);
      assert (a + b)[..|a + b| - 1] == a + b[..|b| - 1];
    }
  }

  /** $match on the creation date, then $group by currency with a $sum of the totals, in any order. */
  ghost predicate GroupedByCurrency(groups: Groups<string>, docs: seq<Doc>, today: bool) {
    && DistinctKeys(groups)
    && (forall c :: Keyed(groups, c) <==> exists d | d in docs :: d.fromToday == today && d.currency == c)
    && (forall c :: Lookup(groups, c) == CurrencySum(docs, today, c))
  }

  ghost predicate GroupedByOption(groups: Groups<(string, string)>, docs: seq<Doc>, today: bool) {
    && DistinctKeys(groups)
    && (forall c, t :: Keyed(groups, (c, t)) <==>
                       exists d | d in docs :: d.fromToday == today && d.currency == c && d.paymentType == t)
    && (forall c, t :: Lookup(groups, (c, t)) == OptionSum(docs, today, c, t))
  }

  lemma KeyedPrefix<K>(groups: Groups<K>, i: nat, key: K)
    requires i < |groups| && DistinctKeys(groups)
    ensures Keyed(groups[..i + 1], key) <==> Keyed(groups[..i], key) || groups[i].0 == key
    ensures !Keyed(groups[..i], groups[i].0)
    ensures Lookup(groups[..i + 1], key) == if groups[i].0 == key then groups[i].1 else Lookup(groups[..i], key)
  {
    assert groups[..i + 1][..i] == groups[..i];
    assert groups[..i + 1][i] == groups[i];
    if Keyed(groups[..i], key) {
      var j :| 0 <= j < i && groups[..i][j].0 == key;
      assert groups[..i + 1][j].0 == key;
    }
  }

  lemma {:induction false} LookupMissing<K>(groups: Groups<K>, key: K)
    requires !Keyed(groups, key)
    ensures Lookup(groups, key) == 0.0
  {
    if groups != [] {
      var prefix := groups[..|groups| - 1];
      assert groups[|groups| - 1].0 != key;
      forall i | 0 <= i < |prefix| ensures prefix[i].0 != key {
        assert groups[i].0 != key;
      }
      LookupMissing(prefix, key);
    }
  }

  predicate DistinctRows(rows: seq<Row>) {
    forall i, j :: 0 <= i < j < |rows| ==> rows[i].currency != rows[j].currency
  }

  predicate HasRow(rows: seq<Row>, currency: string) {
    exists i :: 0 <= i < |rows| && rows[i].currency == currency
  }

  /** The full outer join of the two groupings, per currency. */
  ghost predicate Joined(rows: seq<Row>, today: Groups<string>, before: Groups<string>) {
    && DistinctRows(rows)
    && (forall c :: HasRow(rows, c) <==> Keyed(today, c) || Keyed(before, c))
    && forall i :: 0 <= i < |rows| ==>
         && rows[i].todayTotal == Lookup(today, rows[i].currency)
         && rows[i].overallTotal == Lookup(before, rows[i].currency)
  }

  ghost predicate Rated(rows: seq<Row>, service: Service) {
    forall i :: 0 <= i < |rows| ==> rows[i].exchangeRate == RateOf(service, rows[i].currency)
  }

  predicate DistinctOptions(options: seq<OptionRow>) {
    forall i, j :: 0 <= i < j < |options| ==> options[i].paymentOption != options[j].paymentOption
  }

  predicate HasOption(options: seq<OptionRow>, paymentType: string) {
    exists i :: 0 <= i < |options| && options[i].paymentOption == paymentType
  }

  /** The full outer join of the two groupings, per payment option of one currency. */
  ghost predicate OptionsJoined(row: Row, today: Groups<(string, string)>, before: Groups<(string, string)>) {
    && DistinctOptions(row.paymentOption)
    && (forall t :: HasOption(row.paymentOption, t) <==>
                    Keyed(today, (row.currency, t)) || Keyed(before, (row.currency, t)))
    && forall i :: 0 <= i < |row.paymentOption| ==>
         var o := row.paymentOption[i];
         && o.todayTotal == Lookup(today, (row.currency, o.paymentOption))
         && o.overallTotal == Lookup(before, (row.currency, o.paymentOption))
  }

  class Report {
    var rows: seq<Row>

    constructor ()
      ensures rows == []
    {
      rows := [];
    }

    method FindRow(currency: string) returns (index: int)
      ensures -1 <= index < |rows|
      ensures index >= 0 ==> rows[index].currency == currency
      ensures index == -1 ==> !HasRow(rows, currency)
    {
      for i := 0 to |rows|
        invariant forall j :: 0 <= j < i ==> rows[j].currency != currency
      {
        if rows[i].currency == currency {
          return i;
        }
      }
      index := -1;
    }

    /** getDailyReportCurrency */
    method GetDailyReportCurrency(calculator: ExchangeCalculator, today: Groups<string>, before: Groups<string>)
      requires rows == [] && DistinctKeys(today) && DistinctKeys(before)
      modifies this, calculator
      ensures Joined(rows, today, before)
      ensures old(Reliable(calculator.service, calculator.Now())) ==> Rated(rows, calculator.service)
      ensures forall i :: 0 <= i < |rows| ==> rows[i].paymentOption == []
    {
      for i := 0 to |today|
        invariant old(Reliable(calculator.service, calculator.Now())) ==>
                    Reliable(calculator.service, calculator.Now()) && Rated(rows, calculator.service)
        invariant Joined(rows, today[..i], [])
        invariant forall j :: 0 <= j < |rows| ==> rows[j].paymentOption == []
      {
        var rate := calculator.GetCurrencyExchangeRate(today[i].0);
        PushTodayRow(rows, today, i, Row(today[i].0, rate, today[i].1, 0.0, []));
        rows := rows + [Row(today[i].0, rate, today[i].1, 0.0, [])];
      }
      assert today[..|today|] == today;
      assert before[..0] == [];
      for i := 0 to |before|
        invariant old(Reliable(calculator.service, calculator.Now())) ==>
                    Reliable(calculator.service, calculator.Now()) && Rated(rows, calculator.service)
        invariant Joined(rows, today, before[..i])
        invariant forall j :: 0 <= j < |rows| ==> rows[j].paymentOption == []
      {
        var index := FindRow(before[i].0);
        if index != -1 {
          UpdateRow(rows, today, before, i, index);
          rows := rows[index := rows[index].(overallTotal := before[i].1)];
        } else {
          var rate := calculator.GetCurrencyExchangeRate(before[i].0);
          PushBeforeRow(rows, today, before, i, Row(before[i].0, rate, 0.0, before[i].1, []));
          rows := rows + [Row(before[i].0, rate, 0.0, before[i].1, [])];
        }
      }
      assert before[..|before|] == before;
    }

    method FindOption(index: nat, paymentType: string) returns (k: int)
      requires index < |rows|
      ensures -1 <= k < |rows[index].paymentOption|
      ensures k >= 0 ==> rows[index].paymentOption[k].paymentOption == paymentType
      ensures k == -1 ==> !HasOption(rows[index].paymentOption, paymentType)
    {
      var options := rows[index].paymentOption;
      for i := 0 to |options|
        invariant forall j :: 0 <= j < i ==> options[j].paymentOption != paymentType
      {
        if options[i].paymentOption == paymentType {
          return i;
        }
      }
      k := -1;
    }

    /** One group of the time before: its option of the row is updated, or pushed. */
    method SetOverall(index: nat, today: Groups<(string, string)>, before: Groups<(string, string)>, n: nat)
      requires n < |before| && index < |rows| && rows[index].currency == before[n].0.0
      requires DistinctKeys(today) && DistinctKeys(before) && OptionsJoined(rows[index], today, before[..n])
      modifies this
      ensures |rows| == |old(rows)| && rows == old(rows)[index := rows[index]]
      ensures rows[index].(paymentOption := []) == old(rows)[index].(paymentOption := [])
      ensures OptionsJoined(rows[index], today, before[..n + 1])
    {
      var k := FindOption(index, before[n].0.1);
      if k != -1 {
        UpdateOption(rows[index], today, before, n, k);
        rows := rows[index := WithOverall(rows[index], k, before[n].1)];
      } else {
        PushBeforeOption(rows[index], today, before, n);
        rows := rows[index := rows[index].(
        paymentOption := rows[index].paymentOption + [OptionRow(before[n].0.1, 0.0, before[n].1)])];
      }
    }

    /** getDailyReportPaymentOption: fills the options of the rows, which keep everything else. */
    method GetDailyReportPaymentOption(today: Groups<(string, string)>, before: Groups<(string, string)>)
      requires DistinctRows(rows) && DistinctKeys(today) && DistinctKeys(before)
      requires forall i :: 0 <= i < |rows| ==> rows[i].paymentOption == []
      modifies this
      ensures |rows| == |old(rows)|
      ensures forall i :: 0 <= i < |rows| ==>
                && rows[i].(paymentOption := []) == old(rows)[i]
                && OptionsJoined(rows[i], today, before)
    {
      for n := 0 to |today|
        invariant |rows| == |old(rows)|
        invariant forall i :: 0 <= i < |rows| ==> rows[i].(paymentOption := []) == old(rows)[i]
        invariant forall i :: 0 <= i < |rows| ==> OptionsJoined(rows[i], today[..n], [])
      {
        var index := FindRow(today[n].0.0);
        forall i | 0 <= i < |rows| && i != index ensures OptionsJoined(rows[i], today[..n + 1], []) {
          assert rows[i].currency != today[n].0.0;
          OtherRowToday(rows[i], today, n);
        }
        if index == -1 {
          continue;
        }
        PushTodayOption(rows[index], today, n);
        rows := rows[index := rows[index].(
        paymentOption := rows[index].paymentOption + [OptionRow(today[n].0.1, today[n].1, 0.0)])];
      }
      assert today[..|today|] == today;
      assert before[..0] == [];
      for n := 0 to |before|
        invariant |rows| == |old(rows)|
        invariant forall i :: 0 <= i < |rows| ==> rows[i].(paymentOption := []) == old(rows)[i]
        invariant forall i :: 0 <= i < |rows| ==> OptionsJoined(rows[i], today, before[..n])
      {
        var index := FindRow(before[n].0.0);
        forall i | 0 <= i < |rows| && i != index ensures OptionsJoined(rows[i], today, before[..n + 1]) {
          assert rows[i].currency != before[n].0.0;
          OtherRowBefore(rows[i], today, before, n);
        }
        if index == -1 {
          continue;
        }
        SetOverall(index, today, before, n);
      }
      assert before[..|before|] == before;
    }
  }

  function WithOverall(row: Row, k: nat, total: real): Row
    requires k < |row.paymentOption|
  {
    row.(paymentOption := row.paymentOption[k := row.paymentOption[k].(overallTotal := total)])
  }

  // ---- what one group does to the join ----

  lemma HasRowPush(rows: seq<Row>, row: Row, currency: string)
    ensures HasRow(rows + [row], currency) <==> HasRow(rows, currency) || row.currency == currency
  {
    if HasRow(rows, currency) {
      var i :| 0 <= i < |rows| && rows[i].currency == currency;
      assert (rows + [row])[i].currency == currency;
    }
    assert (rows + [row])[|rows|] == row;
  }

  lemma PushTodayRow(rows: seq<Row>, today: Groups<string>, n: nat, row: Row)
    requires n < |today| && DistinctKeys(today) && Joined(rows, today[..n], [])
    requires row.currency == today[n].0
    requires row.todayTotal == today[n].1 && row.overallTotal == 0.0
    ensures Joined(rows + [row], today[..n + 1], [])
  {
    KeyedPrefix(today, n, row.currency);
    assert !HasRow(rows, row.currency) by {
      assert !Keyed(today[..n], row.currency);
    }
    forall c ensures HasRow(rows + [row], c) <==> Keyed(today[..n + 1], c) || Keyed([], c) {
      HasRowPush(rows, row, c);
      KeyedPrefix(today, n, c);
    }
    forall i | 0 <= i < |rows| ensures rows[i].todayTotal == Lookup(today[..n + 1], rows[i].currency) {
      KeyedPrefix(today, n, rows[i].currency);
    }
  }

  lemma UpdateRow(rows: seq<Row>, today: Groups<string>, before: Groups<string>, n: nat, index: nat)
    requires n < |before| && DistinctKeys(before) && Joined(rows, today, before[..n])
    requires index < |rows| && rows[index].currency == before[n].0
    ensures Joined(rows[index := rows[index].(overallTotal := before[n].1)], today, before[..n + 1])
  {
    var rows' := rows[index := rows[index].(overallTotal := before[n].1)];
    forall c ensures HasRow(rows', c) <==> Keyed(today, c) || Keyed(before[..n + 1], c) {
      KeyedPrefix(before, n, c);
      assert forall i :: 0 <= i < |rows| ==> rows'[i].currency == rows[i].currency;
      assert HasRow(rows', c) <==> HasRow(rows, c);
    }
    forall i | 0 <= i < |rows'| ensures rows'[i].overallTotal == Lookup(before[..n + 1], rows'[i].currency) {
      KeyedPrefix(before, n, rows[i].currency);
    }
  }

  lemma PushBeforeRow(rows: seq<Row>, today: Groups<string>, before: Groups<string>, n: nat, row: Row)
    requires n < |before| && DistinctKeys(before) && Joined(rows, today, before[..n])
    requires !HasRow(rows, before[n].0)
    requires row.currency == before[n].0
    requires row.todayTotal == 0.0 && row.overallTotal == before[n].1
    ensures Joined(rows + [row], today, before[..n + 1])
  {
    forall c ensures HasRow(rows + [row], c) <==> Keyed(today, c) || Keyed(before[..n + 1], c) {
      HasRowPush(rows, row, c);
      KeyedPrefix(before, n, c);
    }
    forall i | 0 <= i < |rows| ensures rows[i].overallTotal == Lookup(before[..n + 1], rows[i].currency) {
      KeyedPrefix(before, n, rows[i].currency);
    }
    LookupMissing(today, row.currency);
    KeyedPrefix(before, n, row.currency);
  }

  lemma HasOptionPush(options: seq<OptionRow>, o: OptionRow, paymentType: string)
    ensures HasOption(options + [o], paymentType) <==> HasOption(options, paymentType) || o.paymentOption == paymentType
  {
    if HasOption(options, paymentType) {
      var i :| 0 <= i < |options| && options[i].paymentOption == paymentType;
      assert (options + [o])[i].paymentOption == paymentType;
    }
    assert (options + [o])[|options|] == o;
  }

  lemma OtherRowToday(row: Row, today: Groups<(string, string)>, n: nat)
    requires n < |today| && DistinctKeys(today) && OptionsJoined(row, today[..n], [])
    requires row.currency != today[n].0.0
    ensures OptionsJoined(row, today[..n + 1], [])
  {
    forall t
      ensures Keyed(today[..n + 1], (row.currency, t)) == Keyed(today[..n], (row.currency, t))
      ensures Lookup(today[..n + 1], (row.currency, t)) == Lookup(today[..n], (row.currency, t))
    {
      KeyedPrefix(today, n, (row.currency, t));
    }
  }

  lemma OtherRowBefore(row: Row, today: Groups<(string, string)>, before: Groups<(string, string)>, n: nat)
    requires n < |before| && DistinctKeys(before) && OptionsJoined(row, today, before[..n])
    requires row.currency != before[n].0.0
    ensures OptionsJoined(row, today, before[..n + 1])
  {
    forall t
      ensures Keyed(before[..n + 1], (row.currency, t)) == Keyed(before[..n], (row.currency, t))
      ensures Lookup(before[..n + 1], (row.currency, t)) == Lookup(before[..n], (row.currency, t))
    {
      KeyedPrefix(before, n, (row.currency, t));
    }
  }

  lemma PushTodayOption(row: Row, today: Groups<(string, string)>, n: nat)
    requires n < |today| && DistinctKeys(today) && OptionsJoined(row, today[..n], [])
    requires row.currency == today[n].0.0
    ensures OptionsJoined(row.(paymentOption := row.paymentOption + [OptionRow(today[n].0.1, today[n].1, 0.0)]),
                          today[..n + 1], [])
  {
    var o := OptionRow(today[n].0.1, today[n].1, 0.0);
    KeyedPrefix(today, n, (row.currency, o.paymentOption));
    assert !HasOption(row.paymentOption, o.paymentOption) by {
      assert !Keyed(today[..n], (row.currency, o.paymentOption));
      assert !Keyed<(string, string)>([], (row.currency, o.paymentOption));
    }
    forall t
      ensures HasOption(row.paymentOption + [o], t) <==>
              Keyed(today[..n + 1], (row.currency, t)) || Keyed([], (row.currency, t))
    {
      HasOptionPush(row.paymentOption, o, t);
      KeyedPrefix(today, n, (row.currency, t));
    }
    forall i | 0 <= i < |row.paymentOption|
      ensures row.paymentOption[i].todayTotal == Lookup(today[..n + 1], (row.currency, row.paymentOption[i].paymentOption))
    {
      KeyedPrefix(today, n, (row.currency, row.paymentOption[i].paymentOption));
    }
  }

  lemma UpdateOption(row: Row, today: Groups<(string, string)>, before: Groups<(string, string)>, n: nat, k: nat)
    requires n < |before| && DistinctKeys(before) && OptionsJoined(row, today, before[..n])
    requires row.currency == before[n].0.0
    requires k < |row.paymentOption| && row.paymentOption[k].paymentOption == before[n].0.1
    ensures OptionsJoined(WithOverall(row, k, before[n].1), today, before[..n + 1])
  {
    var row' := WithOverall(row, k, before[n].1);
    assert forall i :: 0 <= i < |row.paymentOption| ==>
      row'.paymentOption[i].paymentOption == row.paymentOption[i].paymentOption;
    forall t
      ensures HasOption(row'.paymentOption, t) <==>
              Keyed(today, (row.currency, t)) || Keyed(before[..n + 1], (row.currency, t))
    {
      KeyedPrefix(before, n, (row.currency, t));
      assert HasOption(row'.paymentOption, t) <==> HasOption(row.paymentOption, t);
    }
    forall i | 0 <= i < |row'.paymentOption|
      ensures row'.paymentOption[i].overallTotal ==
              Lookup(before[..n + 1], (row.currency, row'.paymentOption[i].paymentOption))
    {
      KeyedPrefix(before, n, (row.currency, row.paymentOption[i].paymentOption));
    }
  }

  lemma PushBeforeOption(row: Row, today: Groups<(string, string)>, before: Groups<(string, string)>, n: nat)
    requires n < |before| && DistinctKeys(before) && OptionsJoined(row, today, before[..n])
    requires row.currency == before[n].0.0 && !HasOption(row.paymentOption, before[n].0.1)
    ensures OptionsJoined(row.(paymentOption := row.paymentOption + [OptionRow(before[n].0.1, 0.0, before[n].1)]),
                          today, before[..n + 1])
  {
    var o := OptionRow(before[n].0.1, 0.0, before[n].1);
    forall t
      ensures HasOption(row.paymentOption + [o], t) <==>
              Keyed(today, (row.currency, t)) || Keyed(before[..n + 1], (row.currency, t))
    {
      HasOptionPush(row.paymentOption, o, t);
      KeyedPrefix(before, n, (row.currency, t));
    }
    forall i | 0 <= i < |row.paymentOption|
      ensures row.paymentOption[i].overallTotal ==
              Lookup(before[..n + 1], (row.currency, row.paymentOption[i].paymentOption))
    {
      KeyedPrefix(before, n, (row.currency, row.paymentOption[i].paymentOption));
    }
    KeyedPrefix(before, n, (row.currency, o.paymentOption));
    LookupMissing(today, (row.currency, o.paymentOption));
  }

  // ---- the report conserves money ----

  function OptionTotals(options: seq<OptionRow>, today: bool): real {
    if options == [] then 0.0
    else
      var last := options[|options| - 1];
      OptionTotals(options[..|options| - 1], today) + if today then last.todayTotal else last.overallTotal
  }

  /** Sum over the documents whose payment type is one of the options. */
  function CoveredSum(docs: seq<Doc>, today: bool, currency: string, options: seq<OptionRow>): real {
    if docs == [] then 0.0
    else
      var last := docs[|docs| - 1];
      CoveredSum(docs[..|docs| - 1], today, currency, options)
      + if last.fromToday == today && last.currency == currency && HasOption(options, last.paymentType)
        then last.total else 0.0
  }

  lemma {:induction false} CoveredPush(docs: seq<Doc>, today: bool, currency: string, options: seq<OptionRow>, o: OptionRow)
    requires !HasOption(options, o.paymentOption)
    ensures CoveredSum(docs, today, currency, options + [o]) ==
            CoveredSum(docs, today, currency, options) + OptionSum(docs, today, currency, o.paymentOption)
  {
    if docs != [] {
      CoveredPush(docs[..|docs| - 1], today, currency, options, o);
      HasOptionPush(options, o, docs[|docs| - 1].paymentType);
    }
  }

  lemma {:induction false} CoveredNone(docs: seq<Doc>, today: bool, currency: string)
    ensures CoveredSum(docs, today, currency, []) == 0.0
  {
    if docs != [] {
      CoveredNone(docs[..|docs| - 1], today, currency);
    }
  }

  lemma {:induction false} CoveredAll(docs: seq<Doc>, today: bool, currency: string, options: seq<OptionRow>)
    requires forall d | d in docs && d.fromToday == today && d.currency == currency :: HasOption(options, d.paymentType)
    ensures CoveredSum(docs, today, currency, options) == CurrencySum(docs, today, currency)
  {
    if docs != [] {
      assert docs[|docs| - 1] in docs;
      CoveredAll(docs[..|docs| - 1], today, currency, options);
    }
  }

  lemma {:induction false} OptionsAddUp(docs: seq<Doc>, today: bool, currency: string, options: seq<OptionRow>)
    requires DistinctOptions(options)
    requires forall i :: 0 <= i < |options| ==>
               (if today then options[i].todayTotal else options[i].overallTotal)
               == OptionSum(docs, today, currency, options[i].paymentOption)
    ensures OptionTotals(options, today) == CoveredSum(docs, today, currency, options)
  {
    if options == [] {
      CoveredNone(docs, today, currency);
    } else {
      var prefix, last := options[..|options| - 1], options[|options| - 1];
      OptionsAddUp(docs, today, currency, prefix);
      assert options == prefix + [last];
      CoveredPush(docs, today, currency, prefix, last);
    }
  }

  /** Every part of the report, over one snapshot of the collection. */
  ghost predicate Complete(rows: seq<Row>, docs: seq<Doc>) {
    && DistinctRows(rows)
    && (forall c :: HasRow(rows, c) <==> exists d | d in docs :: d.currency == c)
    && forall i :: 0 <= i < |rows| ==> RowComplete(rows[i], docs)
  }

  ghost predicate RowComplete(row: Row, docs: seq<Doc>) {
    && row.todayTotal == CurrencySum(docs, true, row.currency)
    && row.overallTotal == CurrencySum(docs, false, row.currency)
    && DistinctOptions(row.paymentOption)
    && (forall t :: HasOption(row.paymentOption, t) <==>
                    exists d | d in docs :: d.currency == row.currency && d.paymentType == t)
    && OptionTotals(row.paymentOption, true) == row.todayTotal
    && OptionTotals(row.paymentOption, false) == row.overallTotal
  }

  lemma RowIsComplete(row: Row, docs: seq<Doc>, today: Groups<(string, string)>, before: Groups<(string, string)>)
    requires GroupedByOption(today, docs, true) && GroupedByOption(before, docs, false)
    requires row.todayTotal == CurrencySum(docs, true, row.currency)
    requires row.overallTotal == CurrencySum(docs, false, row.currency)
    requires OptionsJoined(row, today, before)
    ensures RowComplete(row, docs)
  {
    forall t
      ensures HasOption(row.paymentOption, t) <==>
              exists d | d in docs :: d.currency == row.currency && d.paymentType == t
    {
      assert Keyed(today, (row.currency, t)) || Keyed(before, (row.currency, t)) <==>
             exists d | d in docs :: d.currency == row.currency && d.paymentType == t;
    }
    OptionsAddUp(docs, true, row.currency, row.paymentOption);
    OptionsAddUp(docs, false, row.currency, row.paymentOption);
    CoveredAll(docs, true, row.currency, row.paymentOption);
    CoveredAll(docs, false, row.currency, row.paymentOption);
  }

  /**
    The daily report over one snapshot: every currency in exactly one row, every payment type of a
    currency in exactly one option of its row, and option totals that sum to the totals of the row.
  */
  method BuildReport(service: Service, docs: seq<Doc>, today: Groups<string>, before: Groups<string>,
                     todayOptions: Groups<(string, string)>, beforeOptions: Groups<(string, string)>)
    returns (rows: seq<Row>)
    requires GroupedByCurrency(today, docs, true) && GroupedByCurrency(before, docs, false)
    requires GroupedByOption(todayOptions, docs, true) && GroupedByOption(beforeOptions, docs, false)
    ensures Complete(rows, docs)
    ensures Faithful(service) ==> Rated(rows, service)
  {
    var report := new Report();
    var calculator := new ExchangeCalculator(service);
    report.GetDailyReportCurrency(calculator, today, before);
    ghost var currencies := report.rows;
    report.GetDailyReportPaymentOption(todayOptions, beforeOptions);
    rows := report.rows;
    forall i | 0 <= i < |rows| ensures RowComplete(rows[i], docs) {
      RowIsComplete(rows[i], docs, todayOptions, beforeOptions);
    }
    forall c ensures HasRow(rows, c) <==> exists d | d in docs :: d.currency == c {
      assert HasRow(rows, c) <==> HasRow(currencies, c);
      assert Keyed(today, c) || Keyed(before, c) <==> exists d | d in docs :: d.currency == c;
    }
  }
}
