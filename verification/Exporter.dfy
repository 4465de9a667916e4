/**
  The export: pages are collected until the announced count is reached, then laid out as a table and
  written in chunks.
*/
module Exporter {
  import opened Wrappers

  type Cell = string

  /** A cart item: its named fields and the options it was ordered with, as name and value. */
  datatype Item = Item(cells: map<string, Cell>, options: seq<(string, string)>)

  /** What the export reads of a transaction: three leading cells, address, items and own fields. */
  datatype Record = Record(
    channel: Cell,
    originalId: Cell,
    total: Cell,
    shippingAddress: Option<map<string, Cell>>,
    billingAddress: map<string, Cell>,
    items: seq<Item>,
    fields: map<string, Cell>)

  // ---- collecting the pages ----

  const PAGE_LIMIT := 1000
  const LAST_PAGE := 1000

  function Min(a: nat, b: nat): nat {
    if a < b then a else b
  }

  /** One page of an ordered collection: from (page - 1) * limit, at most limit documents. */
  function Page<T>(collection: seq<T>, page: nat, limit: nat): seq<T>
    requires page >= 1
  {
    var from := Min((page - 1) * limit, |collection|);
    collection[from..Min(from + limit, |collection|)]
  }

  function MaxItems(records: seq<Record>): nat {
    if records == [] then 0
    else
      var rest, last := MaxItems(records[..|records| - 1]), records[|records| - 1];
      if |last.items| > rest then |last.items| else rest
  }

  /** What a run of the page loop gathers, as a recursion over the pages. */
  function Gathered(source: (nat, nat) -> seq<Record>, totalCount: nat, page: nat, limit: nat, exported: nat): seq<Record>
    decreases if page > LAST_PAGE then 0 else LAST_PAGE + 1 - page
  {
    if exported >= totalCount then []
    else
      var result := source(page, limit);
      if page + 1 > LAST_PAGE || result == [] then result
      else result + Gathered(source, totalCount, page + 1, limit, exported + |result|)
  }

  /** The documents of one page, pushed one by one while the longest item list is tracked. */
  method TakePage(transactions: seq<Record>, maxItemsCount: nat, collection: seq<Record>)
    returns (taken: seq<Record>, max: nat)
    requires maxItemsCount == MaxItems(transactions)
    ensures taken == transactions + collection
    ensures max == MaxItems(taken)
  {
    taken, max := transactions, maxItemsCount;
    for i := 0 to |collection|
      invariant taken == transactions + collection[..i]
      invariant max == MaxItems(taken)
    {
      ghost var before := taken;
      taken := taken + [collection[i]];
      assert taken[..|taken| - 1] == before;
      if |collection[i].items| > max {
        max := |collection[i].items|;
      }
    }
  }

  /** The loop of exportToFile.  It ends whatever the search answers. */
  method Collect(source: (nat, nat) -> seq<Record>, totalCount: nat, firstPage: nat)
    returns (transactions: seq<Record>, maxItemsCount: nat)
    ensures transactions == Gathered(source, totalCount, firstPage, Min(totalCount, PAGE_LIMIT), 0)
    ensures maxItemsCount == MaxItems(transactions)
  {
    transactions, maxItemsCount := [], 0;
    var exportedCount: nat := 0;
    var limit := if totalCount > 1000 then 1000 else totalCount;
    var page := firstPage;
    ghost var all := Gathered(source, totalCount, firstPage, limit, 0);
    while exportedCount < totalCount
      invariant maxItemsCount == MaxItems(transactions)
      invariant transactions + Gathered(source, totalCount, page, limit, exportedCount) == all
      decreases LAST_PAGE - page
    {
      var collection := source(page, limit);
      CollectStep(source, totalCount, page, limit, exportedCount, transactions, all);
      transactions, maxItemsCount := TakePage(transactions, maxItemsCount, collection);
      exportedCount := exportedCount + |collection|;
      page := page + 1;
      if page > 1000 || |collection| == 0 {
        return;
      }
    }
  }

  lemma CollectStep(source: (nat, nat) -> seq<Record>, totalCount: nat, page: nat, limit: nat, exported: nat,
                    transactions: seq<Record>, all: seq<Record>)
    requires exported < totalCount
    requires transactions + Gathered(source, totalCount, page, limit, exported) == all
    ensures var taken := transactions + source(page, limit);
            if page + 1 > LAST_PAGE || |source(page, limit)| == 0 then taken == all
            else taken + Gathered(source, totalCount, page + 1, limit, exported + |source(page, limit)|) == all
  {
    GatheredPage(source, totalCount, page, limit, exported);
  }

  lemma GatheredPage(source: (nat, nat) -> seq<Record>, totalCount: nat, page: nat, limit: nat, exported: nat)
    requires exported < totalCount
    ensures var result := source(page, limit);
            Gathered(source, totalCount, page, limit, exported) ==
            if page + 1 > LAST_PAGE || result == [] then result
            else result + Gathered(source, totalCount, page + 1, limit, exported + |result|)
  {
  }

  /** A stable search: the same ordered collection behind every page. */
  function Search(collection: seq<Record>): (nat, nat) -> seq<Record> {
    (page: nat, limit: nat) => if page >= 1 then Page(collection, page, limit) else []
  }

  /** The length of n full pages. */
  function FullPages(n: nat, limit: nat): nat {
    if n == 0 then 0 else FullPages(n - 1, limit) + limit
  }

  lemma {:induction false} FullPagesProduct(n: nat, limit: nat)
    ensures FullPages(n, limit) == n * limit
  {
    if n > 0 {
      FullPagesProduct(n - 1, limit);
      assert n * limit == (n - 1) * limit + limit;
    }
  }

  lemma PageAt(collection: seq<Record>, page: nat, limit: nat)
    requires page >= 1 && FullPages(page - 1, limit) <= |collection|
    ensures var from := FullPages(page - 1, limit);
            Search(collection)(page, limit) == collection[from..Min(from + limit, |collection|)]
  {
    FullPagesProduct(page - 1, limit);
  }

  /** A page that is not the last one. */
  lemma MiddlePage(collection: seq<Record>, page: nat, limit: nat)
    requires 1 <= page < LAST_PAGE && limit >= 1
    requires FullPages(page, limit) <= |collection|
    ensures var from := FullPages(page - 1, limit);
            Gathered(Search(collection), |collection|, page, limit, from) ==
            collection[from..from + limit] + Gathered(Search(collection), |collection|, page + 1, limit, from + limit)
  {
    PageAt(collection, page, limit);
    GatheredPage(Search(collection), |collection|, page, limit, FullPages(page - 1, limit));
  }

  /** A short page, after which the count is reached, or the last page that may be asked for. */
  lemma FinalPage(collection: seq<Record>, page: nat, limit: nat)
    requires 1 <= page <= LAST_PAGE && limit >= 1
    requires FullPages(page - 1, limit) <= |collection|
    requires page == LAST_PAGE || FullPages(page, limit) > |collection|
    ensures var from := FullPages(page - 1, limit);
            Gathered(Search(collection), |collection|, page, limit, from) ==
            collection[from..Min(from + limit, |collection|)]
  {
    var from := FullPages(page - 1, limit);
    if from < |collection| {
      PageAt(collection, page, limit);
      GatheredPage(Search(collection), |collection|, page, limit, from);
    }
  }

  /**
    From a page boundary on, the loop takes the collection in order, up to where the last page that
    may be asked for ends.
  */
  lemma {:induction false} GatheredInOrder(collection: seq<Record>, page: nat, limit: nat, last: nat)
    requires 1 <= page <= last == LAST_PAGE && limit >= 1
    requires FullPages(page - 1, limit) <= |collection|
    ensures var from, end := FullPages(page - 1, limit), FullPages(last, limit);
            && from <= end
            && Gathered(Search(collection), |collection|, page, limit, from) == collection[from..Min(end, |collection|)]
    decreases last - page
  {
    FullPagesGrow(page, last, limit);
    FullPagesGrow(page - 1, page, limit);
    if page == last || FullPages(page, limit) > |collection| {
      FinalPage(collection, page, limit);
    } else {
      MiddlePage(collection, page, limit);
      GatheredInOrder(collection, page + 1, limit, last);
      Joined(collection, FullPages(page - 1, limit), FullPages(page, limit), Min(FullPages(last, limit), |collection|));
    }
  }

  lemma Joined(collection: seq<Record>, from: nat, mid: nat, end: nat)
    requires from <= mid <= end <= |collection|
    ensures collection[from..mid] + collection[mid..end] == collection[from..end]
  {
  }

  lemma {:induction false} FullPagesGrow(n: nat, m: nat, limit: nat)
    requires n <= m
    ensures FullPages(n, limit) <= FullPages(m, limit)
  {
    if n < m {
      FullPagesGrow(n, m - 1, limit);
    }
  }

  /**
    Over a stable collection that was counted before, the export holds every document once and in
    order, exactly when there are at most a million of them; beyond that it holds the first million.
  */
  lemma ExportIsComplete(collection: seq<Record>)
    ensures var gathered := Gathered(Search(collection), |collection|, 1, Min(|collection|, PAGE_LIMIT), 0);
            && gathered == collection[..Min(1000000, |collection|)]
            && (gathered == collection <==> |collection| <= 1000000)
  {
    if collection != [] {
      var limit := Min(|collection|, PAGE_LIMIT);
      var last := LAST_PAGE;
      FullPagesProduct(last, limit);
      GatheredInOrder(collection, 1, limit, last);
      assert LAST_PAGE * limit == Min(1000000, 1000 * |collection|);
      assert collection[..|collection|] == collection;
    }
  }

  // ---- the table ----

  /** A column: its heading and the field it shows. */
  datatype Column = Column(title: string, name: string)

  const SHIPPING_COLUMNS: seq<Column> := [
    Column("Shipping City", "city"), Column("Shipping Company", "company"),
    Column("Shipping Country", "country_name"), Column("Shipping Phone", "phone"),
    Column("Shipping Street", "street"), Column("Shipping Zip", "zip_code")
  ]

  const PRODUCT_COLUMNS: seq<Column> := [
    Column("identifier", "uuid"), Column("name", "name"), Column("variant", "options"), Column("price", "price"),
    Column("vat", "vat_rate"), Column("sku", "sku"), Column("quantity", "quantity")
  ]

  datatype ProductColumn = ProductColumn(index: nat, title: string, name: string)

  function Decimal(n: nat): string {
    (if n < 10 then "" else Decimal(n / 10)) + ["0123456789"[n % 10]]
  }

  /** Items are numbered from one in the headings. */
  function ItemTitle(key: nat, title: string): string {
    "Lineitem" + Decimal(key + 1) + " " + title
  }

  /** getProductColumns: seven columns for each item position. */
  method GetProductColumns(maxItemsCount: nat) returns (columns: seq<ProductColumn>)
    ensures columns == ProductColumns(maxItemsCount)
  {
    columns := [];
    for i := 0 to maxItemsCount
      invariant columns == ProductColumns(i)
    {
      columns := columns + ItemColumns(i);
    }
  }

  function ItemColumns(key: nat): seq<ProductColumn> {
    seq(7, k requires 0 <= k < 7 =>
      ProductColumn(key, ItemTitle(key, PRODUCT_COLUMNS[k].title), PRODUCT_COLUMNS[k].name))
  }

  function ProductColumns(count: nat): seq<ProductColumn> {
    if count == 0 then [] else ProductColumns(count - 1) + ItemColumns(count - 1)
  }

  function JoinOptions(options: seq<(string, string)>): Cell {
    if options == [] then ""
    else
      var first := options[0].0 + ":" + options[0].1;
      if |options| == 1 then first else first + ", " + JoinOptions(options[1..])
  }

  /** getProductValue of a field the item has; a missing one leaves the cell empty. */
  function ProductValue(item: Item, name: string): Cell {
    if name == "options" then JoinOptions(item.options)
    else if name in item.cells then item.cells[name] else ""
  }

  function ItemCell(t: Record, c: ProductColumn): Cell {
    if c.index < |t.items| then ProductValue(t.items[c.index], c.name) else ""
  }

  function AddressCell(t: Record, name: string): Cell {
    if t.shippingAddress.Some? && name in t.shippingAddress.value then t.shippingAddress.value[name]
    else if name in t.billingAddress then t.billingAddress[name] else ""
  }

  function RowOf(t: Record, products: seq<ProductColumn>, columns: seq<Column>): seq<Cell> {
    [t.channel, t.originalId, t.total]
    + seq(6, i requires 0 <= i < 6 => AddressCell(t, SHIPPING_COLUMNS[i].name))
    + seq(|products|, i requires 0 <= i < |products| => ItemCell(t, products[i]))
    + seq(|columns|, i requires 0 <= i < |columns| => if columns[i].name in t.fields then t.fields[columns[i].name] else "")
  }

  function Header(products: seq<ProductColumn>, columns: seq<Column>): seq<Cell> {
    ["CHANNEL", "ID", "TOTAL"]
    + seq(6, i requires 0 <= i < 6 => SHIPPING_COLUMNS[i].title)
    + seq(|products|, i requires 0 <= i < |products| => products[i].title)
    + seq(|columns|, i requires 0 <= i < |columns| => columns[i].title)
  }

  function Table(records: seq<Record>, products: seq<ProductColumn>, columns: seq<Column>): seq<seq<Cell>> {
    [Header(products, columns)]
    + seq(|records|, i requires 0 <= i < |records| => RowOf(records[i], products, columns))
  }

  /** Column k of item i stands at position 7 i + k. */
  lemma {:induction false} ProductColumnAt(count: nat, i: nat, k: nat)
    requires i < count && k < 7
    ensures |ProductColumns(count)| == 7 * count
    ensures ProductColumns(count)[7 * i + k] == ItemColumns(i)[k]
  {
    if count - 1 == i {
      ProductColumnCount(count - 1);
    } else {
      ProductColumnAt(count - 1, i, k);
    }
  }

  lemma {:induction false} ProductColumnCount(count: nat)
    ensures |ProductColumns(count)| == 7 * count
  {
    if count > 0 {
      ProductColumnCount(count - 1);
    }
  }

  lemma {:induction false} ItemsFit(records: seq<Record>, r: nat)
    requires r < |records|
    ensures |records[r].items| <= MaxItems(records)
  {
    if r < |records| - 1 {
      ItemsFit(records[..|records| - 1], r);
    }
  }

  /**
    The table is rectangular, and no item is dropped: item i of every transaction fills the block of
    seven cells that starts at 9 + 7 i, and blocks past its last item are empty.
  */
  lemma TableIsRectangular(records: seq<Record>, columns: seq<Column>, row: nat)
    requires row < |Table(records, ProductColumns(MaxItems(records)), columns)|
    ensures var table := Table(records, ProductColumns(MaxItems(records)), columns);
            && |table| == |records| + 1
            && |table[row]| == 9 + 7 * MaxItems(records) + |columns|
  {
    ProductColumnCount(MaxItems(records));
  }

  lemma ProductCellAt(t: Record, products: seq<ProductColumn>, columns: seq<Column>, p: nat)
    requires p < |products|
    ensures 9 + p < |RowOf(t, products, columns)| == |Header(products, columns)|
    ensures RowOf(t, products, columns)[9 + p] == ItemCell(t, products[p])
    ensures Header(products, columns)[9 + p] == products[p].title
  {
  }

  lemma CellInTable(records: seq<Record>, products: seq<ProductColumn>, columns: seq<Column>, r: nat, p: nat)
    requires r < |records| && p < |products|
    ensures var table := Table(records, products, columns);
            && |table| == |records| + 1 && 9 + p < |table[r + 1]| == |table[0]|
            && table[r + 1][9 + p] == ItemCell(records[r], products[p])
            && table[0][9 + p] == products[p].title
  {
    var table := Table(records, products, columns);
    assert table[0] == Header(products, columns) && table[r + 1] == RowOf(records[r], products, columns);
    ProductCellAt(records[r], products, columns, p);
  }

  lemma BlockCell(records: seq<Record>, columns: seq<Column>, r: nat, i: nat, k: nat)
    requires r < |records| && i < MaxItems(records) && k < 7
    ensures var table := Table(records, ProductColumns(MaxItems(records)), columns);
            && |table| == |records| + 1 && 9 + 7 * i + k < |table[r + 1]| == |table[0]|
            && table[r + 1][9 + 7 * i + k] == ItemCell(records[r], ItemColumns(i)[k])
            && table[0][9 + 7 * i + k] == ItemColumns(i)[k].title
  {
    ProductColumnAt(MaxItems(records), i, k);
    CellInTable(records, ProductColumns(MaxItems(records)), columns, r, 7 * i + k);
  }

  lemma ItemInItsBlock(records: seq<Record>, columns: seq<Column>, r: nat, i: nat, k: nat)
    requires r < |records| && i < MaxItems(records) && k < 7
    ensures var products := ProductColumns(MaxItems(records));
            var table := Table(records, products, columns);
            var items := records[r].items;
            && |records[r].items| <= MaxItems(records)
            && 9 + 7 * i + k < |table[r + 1]| == |table[0]|
            && table[r + 1][9 + 7 * i + k] ==
               (if i < |items| then ProductValue(items[i], PRODUCT_COLUMNS[k].name) else "")
            && table[0][9 + 7 * i + k] == ItemTitle(i, PRODUCT_COLUMNS[k].title)
  {
    ItemsFit(records, r);
    BlockCell(records, columns, r, i, k);
  }

  /** A value of the first map that has the field, or nothing. */
  function FirstOf(name: string, a: Option<map<string, Cell>>, b: map<string, Cell>): Cell {
    if a.Some? && name in a.value then a.value[name] else if name in b then b[name] else ""
  }

  /** The address of a record, field by field: the shipping address where it has the field, else the billing one. */
  function AddressOf(t: Record): seq<Cell> {
    [FirstOf("city", t.shippingAddress, t.billingAddress), FirstOf("company", t.shippingAddress, t.billingAddress),
     FirstOf("country_name", t.shippingAddress, t.billingAddress), FirstOf("phone", t.shippingAddress, t.billingAddress),
     FirstOf("street", t.shippingAddress, t.billingAddress), FirstOf("zip_code", t.shippingAddress, t.billingAddress)]
  }

  const ADDRESS_TITLES: seq<Cell> :=
    ["Shipping City", "Shipping Company", "Shipping Country", "Shipping Phone", "Shipping Street", "Shipping Zip"]

  /** Where the other cells of a row come from: the leading ones, the address, and the chosen columns. */
  lemma RecordCells(records: seq<Record>, products: seq<ProductColumn>, columns: seq<Column>, r: nat)
    requires r < |records|
    ensures var table, own := Table(records, products, columns), 9 + |products|;
            && |table| == |records| + 1
            && var t, row, header := records[r], table[r + 1], table[0];
            && |row| == |header| == own + |columns|
            && row[..3] == [t.channel, t.originalId, t.total] && header[..3] == ["CHANNEL", "ID", "TOTAL"]
            && row[3..9] == AddressOf(t) && header[3..9] == ADDRESS_TITLES
            && forall j :: 0 <= j < |columns| ==>
                 && row[own + j] == FirstOf(columns[j].name, None, t.fields)
                 && header[own + j] == columns[j].title
  {
    RowCells(records[r], products, columns);
    AddressCells(records[r]);
    TableRows(records, products, columns, r);
  }

  lemma TableRows(records: seq<Record>, products: seq<ProductColumn>, columns: seq<Column>, r: nat)
    requires r < |records|
    ensures var table := Table(records, products, columns);
            |table| == |records| + 1 && table[0] == Header(products, columns)
            && table[r + 1] == RowOf(records[r], products, columns)
  {
  }

  lemma AddressCells(t: Record)
    ensures seq(6, i requires 0 <= i < 6 => AddressCell(t, SHIPPING_COLUMNS[i].name)) == AddressOf(t)
    ensures seq(6, i requires 0 <= i < 6 => SHIPPING_COLUMNS[i].title) == ADDRESS_TITLES
  {
  }

  lemma RowCells(t: Record, products: seq<ProductColumn>, columns: seq<Column>)
    ensures var row, header, own := RowOf(t, products, columns), Header(products, columns), 9 + |products|;
            && |row| == |header| == own + |columns|
            && row[..3] == [t.channel, t.originalId, t.total] && header[..3] == ["CHANNEL", "ID", "TOTAL"]
            && row[3..9] == seq(6, i requires 0 <= i < 6 => AddressCell(t, SHIPPING_COLUMNS[i].name))
            && header[3..9] == seq(6, i requires 0 <= i < 6 => SHIPPING_COLUMNS[i].title)
            && forall j :: 0 <= j < |columns| ==>
                 && row[own + j] == FirstOf(columns[j].name, None, t.fields)
                 && header[own + j] == columns[j].title
  {
  }

  /** Options are named, valued and separated by commas, in order. */
  lemma {:induction false} JoinedOptions(a: seq<(string, string)>, b: seq<(string, string)>)
    requires a != [] && b != []
    ensures JoinOptions(a + b) == JoinOptions(a) + ", " + JoinOptions(b)
    ensures |a| == 1 ==> JoinOptions(a) == a[0].0 + ":" + a[0].1
    ensures JoinOptions([]) == ""
  {
    assert (a + b)[1..] == a[1..] + b;
    if |a| > 1 {
      JoinedOptions(a[1..], b);
    } else {
      assert a[1..] + b == b;
    }
  }

  // ---- heading numbers ----

  predicate Digits(s: string) {
    forall i :: 0 <= i < |s| ==> '0' <= s[i] <= '9'
  }

  /** The number a sequence of digits writes. */
  function ValueOf(s: string): int {
    if s == [] then 0 else 10 * ValueOf(s[..|s| - 1]) + (s[|s| - 1] as int - '0' as int)
  }

  lemma DigitWrites(k: nat)
    requires k < 10
    ensures var digit := "0123456789"[k]; '0' <= digit <= '9' && digit as int - '0' as int == k
  {
  }

  lemma {:induction false} DecimalWrites(n: nat)
    ensures Digits(Decimal(n)) && ValueOf(Decimal(n)) == n
  {
    var prefix, digit := if n < 10 then "" else Decimal(n / 10), "0123456789"[n % 10];
    assert Decimal(n) == prefix + [digit] && Decimal(n)[..|prefix|] == prefix;
    DigitWrites(n % 10);
    if n >= 10 {
      DecimalWrites(n / 10);
    }
  }

  /** A heading carries the number of its item, counted from one. */
  lemma HeadingNumber(a: nat, t: string)
    ensures exists digits :: ItemTitle(a, t) == "Lineitem" + digits + " " + t && Digits(digits) && ValueOf(digits) == a + 1
  {
    DecimalWrites(a + 1);
    assert ItemTitle(a, t) == "Lineitem" + Decimal(a + 1) + " " + t;
  }

  /** Headings of different items or different columns differ. */
  lemma HeadingsDiffer(a: nat, b: nat, t: string, u: string)
    ensures ItemTitle(a, t) == ItemTitle(b, u) ==> a == b && t == u
  {
    DecimalWrites(a + 1);
    DecimalWrites(b + 1);
    SameHeading(Decimal(a + 1), Decimal(b + 1), t, u);
  }

  lemma SameHeading(x: string, y: string, t: string, u: string)
    requires Digits(x) && Digits(y)
    ensures "Lineitem" + x + " " + t == "Lineitem" + y + " " + u <==> x == y && t == u
  {
    if "Lineitem" + x + " " + t == "Lineitem" + y + " " + u {
      SameSplit(x, y, t, u);
    }
  }

  lemma ColumnTitlesDiffer(j: nat, k: nat)
    requires j < k < 7
    ensures PRODUCT_COLUMNS[j].title != PRODUCT_COLUMNS[k].title
  {
  }

  function Titled(digits: string, title: string): string {
    "Lineitem" + digits + " " + title
  }

  lemma TitledAt(digits: string, title: string, i: nat)
    requires i <= |digits|
    ensures |Titled(digits, title)| == 9 + |digits| + |title|
    ensures Titled(digits, title)[8 + i] == if i < |digits| then digits[i] else ' '
  {
  }

  lemma SameSplit(x: string, y: string, t: string, u: string)
    requires Digits(x) && Digits(y) && Titled(x, t) == Titled(y, u)
    ensures x == y && t == u
  {
    var least := if |x| < |y| then |x| else |y|;
    TitledAt(x, t, least);
    TitledAt(y, u, least);
    assert |x| == |y|;
    assert x == Titled(x, t)[8..8 + |x|] && y == Titled(y, u)[8..8 + |y|];
    assert t == Titled(x, t)[9 + |x|..] && u == Titled(y, u)[9 + |y|..];
  }

  // ---- CSV chunks ----

  class Worksheet {
    var rows: seq<seq<Cell>>

    constructor ()
      ensures rows == []
    {
      rows := [];
    }

    method AddRows(records: seq<seq<Cell>>)
      modifies this
      ensures rows == old(rows) + records
    {
      rows := rows + records;
    }
  }

  /** exportCSV splices the table into a worksheet, a hundred rows at a time. */
  method WriteChunks(table: seq<seq<Cell>>) returns (worksheet: Worksheet, chunks: seq<seq<seq<Cell>>>)
    ensures worksheet.rows == table
    ensures forall i :: 0 <= i < |chunks| ==> 1 <= |chunks[i]| <= 100
    ensures forall i :: 0 <= i < |chunks| - 1 ==> |chunks[i]| == 100
    ensures Concatenation(chunks) == table
  {
    worksheet := new Worksheet();
    chunks := [];
    var data := table;
    while |data| > 0
      invariant worksheet.rows + data == table
      invariant Concatenation(chunks) == worksheet.rows
      invariant forall i :: 0 <= i < |chunks| ==> 1 <= |chunks[i]| <= 100
      invariant forall i :: 0 <= i < |chunks| - 1 ==> |chunks[i]| == 100
      invariant |data| > 0 && chunks != [] ==> |chunks[|chunks| - 1]| == 100
    {
      var addRecordsCount := if |data| < 100 then |data| else 100;
      var records := data[..addRecordsCount];
      SpliceStep(worksheet.rows, data, addRecordsCount, chunks);
      data := data[addRecordsCount..];
      worksheet.AddRows(records);
      chunks := chunks + [records];
    }
  }

  lemma SpliceStep(rows: seq<seq<Cell>>, data: seq<seq<Cell>>, n: nat, chunks: seq<seq<seq<Cell>>>)
    requires n <= |data|
    ensures (rows + data[..n]) + data[n..] == rows + data
    ensures Concatenation(chunks + [data[..n]]) == Concatenation(chunks) + data[..n]
  {
    assert (chunks + [data[..n]])[..|chunks|] == chunks;
  }

  function Concatenation(chunks: seq<seq<seq<Cell>>>): seq<seq<Cell>> {
    if chunks == [] then [] else Concatenation(chunks[..|chunks| - 1]) + chunks[|chunks| - 1]
  }
}
