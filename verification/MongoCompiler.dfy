/** The same filters compiled to a Mongo $and over the stored documents. */
module MongoCompiler {
  import opened Filters

  datatype Clause =
    | Compare(field: string, kind: RangeKind, lower: Limit, upper: Limit)
    | NotCompare(field: string, kind: RangeKind, lower: Limit, upper: Limit)
    | In(field: string, lits: seq<Literal>)
    | Nin(field: string, lits: seq<Literal>)
    | InPatterns(field: string, pattern: Pattern, lits: seq<Literal>)
    | NinPatterns(field: string, pattern: Pattern, lits: seq<Literal>)

  predicate ClauseHolds(r: Readings, d: Doc, c: Clause) {
    match c
    case Compare(field, kind, lower, upper) => RangeHolds(d, field, kind, lower, upper)
    case NotCompare(field, kind, lower, upper) => !RangeHolds(d, field, kind, lower, upper)
    case In(field, lits) => exists i :: 0 <= i < |lits| && EqualHolds(r, d, field, lits[i])
    case Nin(field, lits) => forall i :: 0 <= i < |lits| ==> !EqualHolds(r, d, field, lits[i])
    case InPatterns(field, pattern, lits) =>
      exists i :: 0 <= i < |lits| && PatternHolds(r, d, field, pattern, lits[i])
    case NinPatterns(field, pattern, lits) =>
      forall i :: 0 <= i < |lits| ==> !PatternHolds(r, d, field, pattern, lits[i])
  }

  /** $and; an empty one is deleted from the filter and everything matches. */
  predicate Accepts(r: Readings, q: seq<Clause>, d: Doc) {
    forall i :: 0 <= i < |q| ==> ClauseHolds(r, d, q[i])
  }

  function Readout(os: seq<Operand>, read: Operand -> real): seq<real> {
    seq(|os|, i requires 0 <= i < |os| => read(os[i]))
  }

  function Numbers(r: Readings, os: seq<Operand>): seq<real> {
    Readout(os, o => NumberOf(r, Start(o)))
  }

  function WholeStarts(r: Readings, os: seq<Operand>): seq<real> {
    Readout(os, o => WholeOf(r, Start(o)))
  }

  function WholeEnds(r: Readings, os: seq<Operand>): seq<real> {
    Readout(os, o => WholeOf(r, End(o)))
  }

  function DayStarts(r: Readings, os: seq<Operand>): seq<real> {
    Readout(os, o => r.dayStart(TextOf(Start(o))) as real)
  }

  function NextDayStarts(r: Readings, os: seq<Operand>): seq<real> {
    Readout(os, o => r.nextDayStart(TextOf(End(o))) as real)
  }

  function DayLower(r: Readings, o: Operand): Limit {
    Inclusive(Finite(r.dayStart(TextOf(Start(o))) as real))
  }

  function DayUpper(r: Readings, o: Operand): Limit {
    Exclusive(Finite(r.nextDayStart(TextOf(Start(o))) as real))
  }

  function Days(r: Readings, field: string, negated: bool, os: seq<Operand>): seq<Clause> {
    seq(|os|, i requires 0 <= i < |os| =>
      if negated then NotCompare(field, DateRange, DayLower(r, os[i]), DayUpper(r, os[i]))
      else Compare(field, DateRange, DayLower(r, os[i]), DayUpper(r, os[i])))
  }

  /** The clauses one filter pushes onto $and.  isIn and isNotIn are not in the list of Mongo filters. */
  function ClausesOf(r: Readings, field: string, c: Condition, os: seq<Operand>): seq<Clause> {
    match c
    case AfterDate => [Compare(field, DateRange, Inclusive(MaxOf(DayStarts(r, os))), Unbounded)]
    case BeforeDate => [Compare(field, DateRange, Unbounded, Exclusive(MinOf(NextDayStarts(r, os))))]
    case BetweenDates =>
      [Compare(field, DateRange, Inclusive(MaxOf(DayStarts(r, os))), Inclusive(MinOf(NextDayStarts(r, os))))]
    case IsDate => Days(r, field, false, os)
    case IsNotDate => Days(r, field, true, os)
    case Between =>
      [Compare(field, NumberRange, Inclusive(MaxOf(WholeStarts(r, os))), Inclusive(MinOf(WholeEnds(r, os))))]
    case GreaterThan => [Compare(field, NumberRange, Exclusive(MaxOf(Numbers(r, os))), Unbounded)]
    case GreaterThanOrEqual => [Compare(field, NumberRange, Inclusive(MaxOf(Numbers(r, os))), Unbounded)]
    case LessThan => [Compare(field, NumberRange, Unbounded, Exclusive(MinOf(Numbers(r, os))))]
    case LessThanOrEqual => [Compare(field, NumberRange, Unbounded, Inclusive(MinOf(Numbers(r, os))))]
    case Contains => if os == [] then [] else [InPatterns(field, Anywhere, LiteralsOf(os))]
    case DoesNotContain => if os == [] then [] else [NinPatterns(field, Anywhere, LiteralsOf(os))]
    case StartsWith => if os == [] then [] else [InPatterns(field, AtStart, LiteralsOf(os))]
    case EndsWith => if os == [] then [] else [InPatterns(field, AtEnd, LiteralsOf(os))]
    case Is => [In(field, LiteralsOf(os))]
    case IsNot => [Nin(field, LiteralsOf(os))]
    case _ => []
  }

  function FieldClauses(r: Readings, field: string, fs: seq<Filter>): seq<Clause> {
    if fs == [] || fs[0].value.Falsy? then []
    else ClausesOf(r, field, fs[0].condition, Operands(fs[0].value)) + FieldClauses(r, field, fs[1..])
  }

  function QueryOf(r: Readings, filters: FieldFilters): seq<Clause> {
    if filters == [] then []
    else FieldClauses(r, filters[0].0, filters[0].1) + QueryOf(r, filters[1..])
  }

  class MongoFilters {
    var conjuncts: seq<Clause>

    constructor ()
      ensures conjuncts == []
    {
      conjuncts := [];
    }

    /** The patterns are built one by one, then pushed as one clause. */
    method ApplyPatterns(field: string, pattern: Pattern, negated: bool, values: seq<Operand>)
      modifies this
      ensures conjuncts == old(conjuncts) +
                           if values == [] then []
                           else if negated then [NinPatterns(field, pattern, LiteralsOf(values))]
                           else [InPatterns(field, pattern, LiteralsOf(values))]
    {
      if values != [] {
        var regex: seq<Literal> := [];
        for i := 0 to |values|
          invariant regex == LiteralsOf(values)[..i]
          invariant conjuncts == old(conjuncts)
        {
          regex := regex + [Start(values[i])];
        }
        assert regex == LiteralsOf(values);
        conjuncts := conjuncts + [if negated then NinPatterns(field, pattern, regex) else InPatterns(field, pattern, regex)];
      }
    }

    method ApplyDays(r: Readings, field: string, negated: bool, values: seq<Operand>)
      modifies this
      ensures conjuncts == old(conjuncts) + Days(r, field, negated, values)
    {
      for i := 0 to |values|
        invariant conjuncts == old(conjuncts) + Days(r, field, negated, values)[..i]
      {
        var lower, upper := DayLower(r, values[i]), DayUpper(r, values[i]);
        conjuncts := conjuncts + [if negated then NotCompare(field, DateRange, lower, upper)
                                  else Compare(field, DateRange, lower, upper)];
        assert Days(r, field, negated, values)[..i + 1] ==
               Days(r, field, negated, values)[..i] + [Days(r, field, negated, values)[i]];
      }
      assert Days(r, field, negated, values)[..|values|] == Days(r, field, negated, values);
    }

    method Apply(r: Readings, field: string, c: Condition, values: seq<Operand>)
      modifies this
      ensures conjuncts == old(conjuncts) + ClausesOf(r, field, c, values)
    {
      match c {
        case Contains => ApplyPatterns(field, Anywhere, false, values);
        case DoesNotContain => ApplyPatterns(field, Anywhere, true, values);
        case StartsWith => ApplyPatterns(field, AtStart, false, values);
        case EndsWith => ApplyPatterns(field, AtEnd, false, values);
        case IsDate => ApplyDays(r, field, false, values);
        case IsNotDate => ApplyDays(r, field, true, values);
        case _ => conjuncts := conjuncts + ClausesOf(r, field, c, values);
      }
    }

    method AddFilter(r: Readings, field: string, fs: seq<Filter>)
      modifies this
      ensures conjuncts == old(conjuncts) + FieldClauses(r, field, fs)
    {
      for i := 0 to |fs|
        invariant conjuncts + FieldClauses(r, field, fs[i..]) == old(conjuncts) + FieldClauses(r, field, fs)
      {
        if fs[i].value.Falsy? {
          return;
        }
        NextFilter(r, field, fs, i, conjuncts);
        Apply(r, field, fs[i].condition, Operands(fs[i].value));
      }
    }
  }

  lemma NextFilter(r: Readings, field: string, fs: seq<Filter>, i: nat, sofar: seq<Clause>)
    requires i < |fs| && !fs[i].value.Falsy?
    ensures sofar + FieldClauses(r, field, fs[i..]) ==
            (sofar + ClausesOf(r, field, fs[i].condition, Operands(fs[i].value))) + FieldClauses(r, field, fs[i + 1..])
  {
    assert fs[i..][1..] == fs[i + 1..];
  }

  lemma NextField(r: Readings, filters: FieldFilters, k: nat, sofar: seq<Clause>)
    requires k < |filters|
    ensures sofar + QueryOf(r, filters[k..]) ==
            (sofar + FieldClauses(r, filters[k].0, filters[k].1)) + QueryOf(r, filters[k + 1..])
  {
    assert filters[k..][1..] == filters[k + 1..];
  }

  method Compile(r: Readings, filters: FieldFilters) returns (q: seq<Clause>)
    ensures q == QueryOf(r, filters)
  {
    var body := new MongoFilters();
    assert filters[0..] == filters;
    for k := 0 to |filters|
      invariant body.conjuncts + QueryOf(r, filters[k..]) == QueryOf(r, filters)
    {
      NextField(r, filters, k, body.conjuncts);
      body.AddFilter(r, filters[k].0, filters[k].1);
    }
    q := body.conjuncts;
  }
}
