/**
  Filters compiled to an Elastic bool query.  Filter values on long fields are scaled in place
  before they are compiled.
*/
module ElasticCompiler {
  import opened Filters

  datatype Clause =
    | Range(field: string, kind: RangeKind, lower: Limit, upper: Limit)
    | MatchPhrase(field: string, lit: Literal)
    | QueryString(field: string, pattern: Pattern, lit: Literal)
    | Should(field: string, lits: seq<Literal>)

  datatype Query = Query(must: seq<Clause>, mustNot: seq<Clause>)

  const NOTHING := Query([], [])

  function Plus(a: Query, b: Query): Query {
    Query(a.must + b.must, a.mustNot + b.mustNot)
  }

  /** A bool query without clauses, such as a should of nothing, matches every document. */
  predicate ClauseHolds(r: Readings, d: Doc, c: Clause) {
    match c
    case Range(field, kind, lower, upper) => RangeHolds(d, field, kind, lower, upper)
    case MatchPhrase(field, lit) => EqualHolds(r, d, field, lit)
    case QueryString(field, pattern, lit) => PatternHolds(r, d, field, pattern, lit)
    case Should(field, lits) => lits == [] || exists i :: 0 <= i < |lits| && MatchHolds(r, d, field, lits[i])
  }

  /** bool: every must clause holds and no must_not clause does. */
  predicate Accepts(r: Readings, q: Query, d: Doc) {
    && (forall i :: 0 <= i < |q.must| ==> ClauseHolds(r, d, q.must[i]))
    && (forall i :: 0 <= i < |q.mustNot| ==> !ClauseHolds(r, d, q.mustNot[i]))
  }

  // ---- the double value processor ----

  function ScaleLiteral(r: Readings, lit: Literal): Literal {
    Scaled(NumberOf(r, lit) * 100.0)
  }

  function ScaleOperand(r: Readings, field: string, o: Operand): Operand {
    if !IsLong(field) then o
    else match o
      case Plain(lit) => Plain(ScaleLiteral(r, lit))
      case Window(from, to) => Window(ScaleLiteral(r, from), ScaleLiteral(r, to))
  }

  function ScaleAll(r: Readings, field: string, os: seq<Operand>): seq<Operand> {
    seq(|os|, i requires 0 <= i < |os| => ScaleOperand(r, field, os[i]))
  }

  method Process(r: Readings, field: string, values: seq<Operand>) returns (scaled: seq<Operand>)
    ensures scaled == ScaleAll(r, field, values)
  {
    scaled := values;
    if IsLong(field) {
      for key := 0 to |values|
        invariant |scaled| == |values|
        invariant forall i :: 0 <= i < key ==> scaled[i] == ScaleOperand(r, field, values[i])
        invariant forall i :: key <= i < |values| ==> scaled[i] == values[i]
      {
        match scaled[key] {
          case Window(from, to) =>
            scaled := scaled[key := Window(ScaleLiteral(r, from), ScaleLiteral(r, to))];
          case Plain(lit) =>
            scaled := scaled[key := Plain(ScaleLiteral(r, lit))];
        }
      }
    }
  }

  // ---- one filter ----

  function Starts(os: seq<Operand>, read: Literal -> real): seq<real> {
    seq(|os|, i requires 0 <= i < |os| => read(Start(os[i])))
  }

  function Ends(os: seq<Operand>, read: Literal -> real): seq<real> {
    seq(|os|, i requires 0 <= i < |os| => read(End(os[i])))
  }

  function Whole(r: Readings): Literal -> real {
    (lit: Literal) => WholeOf(r, lit)
  }

  function DayStart(r: Readings): Literal -> real {
    (lit: Literal) => r.dayStart(TextOf(lit)) as real
  }

  function NextDayStart(r: Readings): Literal -> real {
    (lit: Literal) => r.nextDayStart(TextOf(lit)) as real
  }

  /** The conditions whose apply loops over the values, and the clause one value makes. */
  predicate PerValue(c: Condition) {
    c in {IsDate, IsNotDate, Contains, DoesNotContain, EndsWith, StartsWith,
          GreaterThan, GreaterThanOrEqual, LessThan, LessThanOrEqual, Is, IsNot}
  }

  predicate Negative(c: Condition) {
    c in {IsNotDate, DoesNotContain, IsNot, IsNotIn}
  }

  function ValueClause(r: Readings, field: string, c: Condition, o: Operand): Clause
    requires PerValue(c)
  {
    var lit := Start(o);
    var n := Finite(NumberOf(r, lit));
    match c
    case GreaterThan => Range(field, NumberRange, Exclusive(n), Unbounded)
    case GreaterThanOrEqual => Range(field, NumberRange, Inclusive(n), Unbounded)
    case LessThan => Range(field, NumberRange, Unbounded, Exclusive(n))
    case LessThanOrEqual => Range(field, NumberRange, Unbounded, Inclusive(n))
    case Contains => QueryString(field, Anywhere, lit)
    case DoesNotContain => QueryString(field, Anywhere, lit)
    case StartsWith => QueryString(field, AtStart, lit)
    case EndsWith => QueryString(field, AtEnd, lit)
    case Is => MatchPhrase(field, lit)
    case IsNot => MatchPhrase(field, lit)
    case _ => Range(field, DateRange, Inclusive(Finite(DayStart(r)(lit))), Exclusive(Finite(NextDayStart(r)(lit))))
  }

  function ValueClauses(r: Readings, field: string, c: Condition, os: seq<Operand>): seq<Clause>
    requires PerValue(c)
  {
    seq(|os|, i requires 0 <= i < |os| => ValueClause(r, field, c, os[i]))
  }

  /** The clauses one filter pushes, from its already scaled values. */
  function ClausesOf(r: Readings, field: string, c: Condition, os: seq<Operand>): seq<Clause> {
    if PerValue(c) then ValueClauses(r, field, c, os)
    else match c
      case AfterDate =>
        [Range(field, DateRange, Inclusive(MaxOf(Starts(os, DayStart(r)))), Unbounded)]
      case BeforeDate =>
        [Range(field, DateRange, Unbounded, Exclusive(MinOf(Ends(os, NextDayStart(r)))))]
      case BetweenDates =>
        [Range(field, DateRange, Inclusive(MaxOf(Starts(os, DayStart(r)))),
               Exclusive(MinOf(Ends(os, NextDayStart(r)))))]
      case Between =>
        [Range(field, NumberRange, Inclusive(MaxOf(Starts(os, Whole(r)))),
               Inclusive(MinOf(Ends(os, Whole(r)))))]
      case IsIn => [Should(field, LiteralsOf(os))]
      case IsNotIn => [Should(field, LiteralsOf(os))]
      case _ => []
  }

  function FilterQuery(r: Readings, field: string, f: Filter): Query {
    var clauses := ClausesOf(r, field, f.condition, ScaleAll(r, field, Operands(f.value)));
    if Negative(f.condition) then Query([], clauses) else Query(clauses, [])
  }

  /** A falsy value returns from addFilter: the later filters of that field are dropped. */
  function FieldQuery(r: Readings, field: string, fs: seq<Filter>): Query {
    if fs == [] || fs[0].value.Falsy? then NOTHING
    else Plus(FilterQuery(r, field, fs[0]), FieldQuery(r, field, fs[1..]))
  }

  function QueryOf(r: Readings, filters: FieldFilters): Query {
    if filters == [] then NOTHING
    else Plus(FieldQuery(r, filters[0].0, filters[0].1), QueryOf(r, filters[1..]))
  }

  /** The input filters after addFilter wrapped and scaled their values in place. */
  function ScaledFilters(r: Readings, field: string, fs: seq<Filter>): seq<Filter> {
    if fs == [] || fs[0].value.Falsy? then fs
    else [Filter(fs[0].condition, Many(ScaleAll(r, field, Operands(fs[0].value))))]
         + ScaledFilters(r, field, fs[1..])
  }

  class BoolQuery {
    var must: seq<Clause>
    var mustNot: seq<Clause>

    constructor ()
      ensures Now() == NOTHING
    {
      must, mustNot := [], [];
    }

    function Now(): Query
      reads this
    {
      Query(must, mustNot)
    }

    /** apply of the filters that loop over their values. */
    method ApplyPerValue(r: Readings, field: string, c: Condition, values: seq<Operand>)
      requires PerValue(c)
      modifies this
      ensures Now() == Plus(old(Now()), if Negative(c) then Query([], ValueClauses(r, field, c, values))
                                        else Query(ValueClauses(r, field, c, values), []))
    {
      for i := 0 to |values|
        invariant var sofar := ValueClauses(r, field, c, values)[..i];
                  Now() == Plus(old(Now()), if Negative(c) then Query([], sofar) else Query(sofar, []))
      {
        var condition := ValueClause(r, field, c, values[i]);
        if Negative(c) {
          mustNot := mustNot + [condition];
        } else {
          must := must + [condition];
        }
        assert ValueClauses(r, field, c, values)[..i + 1] == ValueClauses(r, field, c, values)[..i] + [condition];
      }
      assert ValueClauses(r, field, c, values)[..|values|] == ValueClauses(r, field, c, values);
    }

    method Apply(r: Readings, field: string, c: Condition, values: seq<Operand>)
      modifies this
      ensures Now() == Plus(old(Now()), if Negative(c) then Query([], ClausesOf(r, field, c, values))
                                        else Query(ClausesOf(r, field, c, values), []))
    {
      if PerValue(c) {
        ApplyPerValue(r, field, c, values);
      } else {
        var clauses := ClausesOf(r, field, c, values);
        if Negative(c) {
          mustNot := mustNot + clauses;
        } else {
          must := must + clauses;
        }
      }
    }

    /** addFilter: the rewritten filters replace the ones the client sent. */
    method AddFilter(r: Readings, field: string, fs: seq<Filter>) returns (rewritten: seq<Filter>)
      modifies this
      ensures Now() == Plus(old(Now()), FieldQuery(r, field, fs))
      ensures rewritten == ScaledFilters(r, field, fs)
    {
      rewritten := fs;
      var i := 0;
      while i < |fs|
        invariant 0 <= i <= |fs| == |rewritten|
        invariant rewritten[i..] == fs[i..]
        invariant rewritten[..i] + ScaledFilters(r, field, fs[i..]) == ScaledFilters(r, field, fs)
        invariant Plus(Now(), FieldQuery(r, field, fs[i..])) == Plus(old(Now()), FieldQuery(r, field, fs))
      {
        if fs[i].value.Falsy? {
          assert rewritten == rewritten[..i] + rewritten[i..];
          return;
        }
        var scaled := Process(r, field, Operands(fs[i].value));
        FieldStep(r, field, fs, i, Now());
        ScaledStep(r, field, fs, i, rewritten);
        rewritten := rewritten[i := Filter(fs[i].condition, Many(scaled))];
        Apply(r, field, fs[i].condition, scaled);
        i := i + 1;
      }
    }
  }

  lemma FieldStep(r: Readings, field: string, fs: seq<Filter>, i: nat, q: Query)
    requires i < |fs| && !fs[i].value.Falsy?
    ensures Plus(q, FieldQuery(r, field, fs[i..])) ==
            Plus(Plus(q, FilterQuery(r, field, fs[i])), FieldQuery(r, field, fs[i + 1..]))
  {
    assert fs[i..][1..] == fs[i + 1..];
    PlusAssociates(q, FilterQuery(r, field, fs[i]), FieldQuery(r, field, fs[i + 1..]));
  }

  lemma ScaledStep(r: Readings, field: string, fs: seq<Filter>, i: nat, rewritten: seq<Filter>)
    requires i < |fs| && !fs[i].value.Falsy?
    requires |rewritten| == |fs| && rewritten[i..] == fs[i..]
    ensures var f := Filter(fs[i].condition, Many(ScaleAll(r, field, Operands(fs[i].value))));
            var next := rewritten[i := f];
            && next[i + 1..] == fs[i + 1..]
            && next[..i + 1] + ScaledFilters(r, field, fs[i + 1..]) ==
               rewritten[..i] + ScaledFilters(r, field, fs[i..])
  {
    var f := Filter(fs[i].condition, Many(ScaleAll(r, field, Operands(fs[i].value))));
    assert fs[i..][1..] == fs[i + 1..] == rewritten[i..][1..];
    assert rewritten[i := f][..i + 1] == rewritten[..i] + [f];
  }

  lemma PlusAssociates(a: Query, b: Query, c: Query)
    ensures Plus(Plus(a, b), c) == Plus(a, Plus(b, c))
    ensures Plus(NOTHING, a) == a == Plus(a, NOTHING)
  {
  }

  class ListQuery {
    var filters: FieldFilters

    constructor (filters: FieldFilters)
      ensures this.filters == filters
    {
      this.filters := filters;
    }
  }

  /** addFilters over all fields of a list query, whose filter values it rewrites. */
  method Compile(r: Readings, query: ListQuery) returns (q: Query)
    modifies query
    ensures q == QueryOf(r, old(query.filters))
    ensures |query.filters| == |old(query.filters)|
    ensures forall k :: 0 <= k < |query.filters| ==>
              query.filters[k] == (old(query.filters)[k].0,
                                   ScaledFilters(r, old(query.filters)[k].0, old(query.filters)[k].1))
  {
    ghost var fs := query.filters;
    var body := new BoolQuery();
    PlusAssociates(QueryOf(r, fs), NOTHING, NOTHING);
    for k := 0 to |query.filters|
      invariant |query.filters| == |fs|
      invariant forall j :: 0 <= j < k ==> query.filters[j] == (fs[j].0, ScaledFilters(r, fs[j].0, fs[j].1))
      invariant query.filters[k..] == fs[k..]
      invariant Plus(body.Now(), QueryOf(r, fs[k..])) == QueryOf(r, fs)
    {
      var field, filters := query.filters[k].0, query.filters[k].1;
      assert query.filters[k] == query.filters[k..][0] == fs[k..][0] == fs[k];
      ghost var now := body.Now();
      var rewritten := body.AddFilter(r, field, filters);
      query.filters := query.filters[k := (field, rewritten)];
      assert fs[k..][1..] == fs[k + 1..];
      PlusAssociates(now, FieldQuery(r, field, filters), QueryOf(r, fs[k + 1..]));
    }
    q := body.Now();
    PlusAssociates(q, NOTHING, NOTHING);
  }
}
