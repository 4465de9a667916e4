/** The two compilers agree: what each accepts, over the documents each of them holds. */
module QueryAgreement {
  import opened Filters
  import opened Money
  import E = ElasticCompiler
  import M = MongoCompiler

  /** Amounts on long fields are numbers, in whole cents. */
  predicate WholeCentDoc(d: Doc) {
    forall f | f in d && IsLong(f) :: d[f].Num? && WholeCents(d[f].n)
  }

  /** A bound of which parseInt keeps as many cents once it is scaled as units when it is not. */
  predicate CentAligned(r: Readings, lit: Literal) {
    Trunc(NumberOf(r, lit) * 100.0) as real == 100.0 * WholeOf(r, lit)
  }

  /** The bounds of between in cents, as parseInt leaves the scaled values. */
  function CentStarts(r: Readings, os: seq<Operand>): seq<real> {
    seq(|os|, i requires 0 <= i < |os| => Trunc(NumberOf(r, Start(os[i])) * 100.0) as real)
  }

  function CentEnds(r: Readings, os: seq<Operand>): seq<real> {
    seq(|os|, i requires 0 <= i < |os| => Trunc(NumberOf(r, End(os[i])) * 100.0) as real)
  }

  /** Elastic reads no amount, or none that lies outside the range Mongo reads. */
  predicate BetweenIncluded(r: Readings, field: string, os: seq<Operand>) {
    !IsLong(field) || os == [] ||
    var lowCents, highCents := Largest(CentStarts(r, os)), Smallest(CentEnds(r, os));
    || lowCents > highCents
    || (lowCents >= 100.0 * Largest(M.WholeStarts(r, os)) && highCents <= 100.0 * Smallest(M.WholeEnds(r, os)))
  }

  /** Both read the same range, or both read none. */
  predicate BetweenSame(r: Readings, field: string, os: seq<Operand>) {
    !IsLong(field) || os == [] ||
    var lowCents, highCents := Largest(CentStarts(r, os)), Smallest(CentEnds(r, os));
    var low, high := Largest(M.WholeStarts(r, os)), Smallest(M.WholeEnds(r, os));
    || (lowCents == 100.0 * low && highCents == 100.0 * high)
    || (lowCents > highCents && low > high)
  }

  predicate AsSent(os: seq<Operand>) {
    forall i :: 0 <= i < |os| ==> Start(os[i]).Raw? && End(os[i]).Raw?
  }

  predicate DateCondition(c: Condition) {
    c in {AfterDate, BeforeDate, BetweenDates, IsDate, IsNotDate}
  }

  /** The conditions on which Elastic accepts more than Mongo, or throws, when no value is given. */
  predicate NeedsValues(c: Condition) {
    c in {Is, GreaterThan, GreaterThanOrEqual, LessThan, LessThanOrEqual, AfterDate, BeforeDate, BetweenDates}
  }

  /** A filter on which Elastic accepts only what Mongo does. */
  predicate Comparable(r: Readings, field: string, f: Filter) {
    var os := Operands(f.value);
    && AsSent(os)
    && (NeedsValues(f.condition) ==> f.value.Falsy? || os != [])
    && (f.condition == Between ==> BetweenIncluded(r, field, os))
    && (DateCondition(f.condition) ==> !IsLong(field))
  }

  /** The conditions on which they accept exactly the same documents. */
  predicate Agreeing(r: Readings, field: string, f: Filter) {
    && Comparable(r, field, f)
    && (f.condition in {Is, Contains, StartsWith, EndsWith} ==> |Operands(f.value)| <= 1)
    && (f.condition == Between ==> BetweenSame(r, field, Operands(f.value)))
    && f.condition !in {BetweenDates, IsIn, IsNotIn}
  }

  lemma PackedNumber(d: Doc, field: string)
    requires WholeCentDoc(d) && field in d && d[field].Num?
    ensures PackDoc(d)[field] == Num(if IsLong(field) then d[field].n * 100.0 else d[field].n)
  {
    if IsLong(field) {
      TruncationError(d[field].n);
    }
  }

  predicate Compares(c: Condition, x: real, n: real) {
    match c
    case GreaterThan => x > n
    case GreaterThanOrEqual => x >= n
    case LessThan => x < n
    case _ => x <= n
  }

  predicate Comparison(c: Condition) {
    c in {GreaterThan, GreaterThanOrEqual, LessThan, LessThanOrEqual}
  }

  /** One numeric comparison: scaled literal against packed amount is literal against amount. */
  lemma ScaledComparison(r: Readings, d: Doc, field: string, o: Operand, c: Condition)
    requires WholeCentDoc(d) && Comparison(c)
    ensures E.ClauseHolds(r, PackDoc(d), E.ValueClause(r, field, c, E.ScaleOperand(r, field, o)))
            <==> field in d && d[field].Num? && Compares(c, d[field].n, NumberOf(r, Start(o)))
  {
    if field in d && d[field].Num? {
      PackedNumber(d, field);
    }
  }

  /** An elastic filter that loops over its values is the conjunction of what each value asks. */
  lemma PerValueMeaning(r: Readings, field: string, f: Filter, d: Doc)
    requires E.PerValue(f.condition)
    ensures E.Accepts(r, E.FilterQuery(r, field, f), d)
            <==> forall i :: 0 <= i < |Operands(f.value)| ==>
                   (E.ClauseHolds(r, d, E.ValueClause(r, field, f.condition,
                                                      E.ScaleOperand(r, field, Operands(f.value)[i])))
                    <==> !E.Negative(f.condition))
  {
    var os := Operands(f.value);
    var clauses := E.ValueClauses(r, field, f.condition, E.ScaleAll(r, field, os));
    assert forall i :: 0 <= i < |os| ==>
      clauses[i] == E.ValueClause(r, field, f.condition, E.ScaleOperand(r, field, os[i]));
    var q := E.FilterQuery(r, field, f);
    if E.Negative(f.condition) {
      assert q == E.Query([], clauses);
    } else {
      assert q == E.Query(clauses, []);
    }
  }

  /** One bound, the largest or the smallest of the values, asks what all of them ask. */
  lemma MongoComparison(r: Readings, field: string, c: Condition, os: seq<Operand>, d: Doc)
    requires Comparison(c)
    ensures M.Accepts(r, M.ClausesOf(r, field, c, os), d)
            <==> field in d && d[field].Num?
                 && forall i :: 0 <= i < |os| ==> Compares(c, d[field].n, NumberOf(r, Start(os[i])))
  {
    var clauses, numbers := M.ClausesOf(r, field, c, os), M.Numbers(r, os);
    assert M.Accepts(r, clauses, d) <==> M.ClauseHolds(r, d, clauses[0]);
    assert forall i :: 0 <= i < |os| ==> numbers[i] == NumberOf(r, Start(os[i]));
    if field in d && d[field].Num? {
      AboveMax(d[field].n, numbers);
      BelowMin(d[field].n, numbers);
    }
  }

  lemma ComparisonsAgree(r: Readings, field: string, f: Filter, d: Doc)
    requires WholeCentDoc(d) && Comparable(r, field, f) && Operands(f.value) != []
    requires Comparison(f.condition)
    ensures E.Accepts(r, E.FilterQuery(r, field, f), PackDoc(d))
            <==> M.Accepts(r, M.ClausesOf(r, field, f.condition, Operands(f.value)), d)
  {
    var os := Operands(f.value);
    PerValueMeaning(r, field, f, PackDoc(d));
    MongoComparison(r, field, f.condition, os, d);
    forall i | 0 <= i < |os| {
      ScaledComparison(r, d, field, os[i], f.condition);
    }
    assert 0 < |os|;
  }

  lemma ScaledEquality(r: Readings, d: Doc, field: string, o: Operand)
    requires WholeCentDoc(d) && Start(o).Raw?
    ensures EqualHolds(r, PackDoc(d), field, Start(E.ScaleOperand(r, field, o))) <==> EqualHolds(r, d, field, Start(o))
  {
    if field in d && d[field].Num? {
      PackedNumber(d, field);
    }
  }

  lemma SamePattern(r: Readings, d: Doc, field: string, pattern: Pattern, o: Operand)
    requires WholeCentDoc(d) && Start(o).Raw?
    ensures PatternHolds(r, PackDoc(d), field, pattern, Start(E.ScaleOperand(r, field, o)))
            <==> PatternHolds(r, d, field, pattern, Start(o))
  {
  }

  function PatternOf(c: Condition): Pattern {
    if c == StartsWith then AtStart else if c == EndsWith then AtEnd else Anywhere
  }

  /** What one value of a text condition asks, on either side. */
  predicate TextHolds(r: Readings, d: Doc, field: string, c: Condition, o: Operand) {
    if c == Is || c == IsNot then EqualHolds(r, d, field, Start(o))
    else PatternHolds(r, d, field, PatternOf(c), Start(o))
  }

  lemma ElasticText(r: Readings, field: string, f: Filter, d: Doc)
    requires WholeCentDoc(d) && AsSent(Operands(f.value))
    requires f.condition in {Is, IsNot, Contains, DoesNotContain, StartsWith, EndsWith}
    ensures E.Accepts(r, E.FilterQuery(r, field, f), PackDoc(d))
            <==> forall i :: 0 <= i < |Operands(f.value)| ==>
                   (TextHolds(r, d, field, f.condition, Operands(f.value)[i]) <==> !E.Negative(f.condition))
  {
    var os := Operands(f.value);
    PerValueMeaning(r, field, f, PackDoc(d));
    forall i | 0 <= i < |os|
      ensures E.ClauseHolds(r, PackDoc(d), E.ValueClause(r, field, f.condition, E.ScaleOperand(r, field, os[i])))
              <==> TextHolds(r, d, field, f.condition, os[i])
    {
      TextClause(r, field, f.condition, os[i], d);
    }
  }

  lemma TextClause(r: Readings, field: string, c: Condition, o: Operand, d: Doc)
    requires WholeCentDoc(d) && Start(o).Raw?
    requires c in {Is, IsNot, Contains, DoesNotContain, StartsWith, EndsWith}
    ensures E.ClauseHolds(r, PackDoc(d), E.ValueClause(r, field, c, E.ScaleOperand(r, field, o)))
            <==> TextHolds(r, d, field, c, o)
  {
    ScaledEquality(r, d, field, o);
    SamePattern(r, d, field, PatternOf(c), o);
  }

  lemma MongoText(r: Readings, field: string, f: Filter, d: Doc)
    requires Operands(f.value) != []
    requires f.condition in {Is, IsNot, Contains, DoesNotContain, StartsWith, EndsWith}
    ensures var os := Operands(f.value);
            M.Accepts(r, M.ClausesOf(r, field, f.condition, os), d)
            <==> if E.Negative(f.condition)
                 then forall i :: 0 <= i < |os| ==> !TextHolds(r, d, field, f.condition, os[i])
                 else exists i :: 0 <= i < |os| && TextHolds(r, d, field, f.condition, os[i])
  {
    var os := Operands(f.value);
    var clauses := M.ClausesOf(r, field, f.condition, os);
    assert M.Accepts(r, clauses, d) <==> M.ClauseHolds(r, d, clauses[0]);
    var lits := LiteralsOf(os);
    assert forall i :: 0 <= i < |os| ==> lits[i] == Start(os[i]);
    if i :| 0 <= i < |os| && TextHolds(r, d, field, f.condition, os[i]) {
      assert f.condition in {Is, IsNot} ==> EqualHolds(r, d, field, lits[i]);
      assert f.condition !in {Is, IsNot} ==> PatternHolds(r, d, field, PatternOf(f.condition), lits[i]);
    }
  }

  lemma DayClauses(r: Readings, field: string, f: Filter, d: Doc)
    requires WholeCentDoc(d) && !IsLong(field) && f.condition in {IsDate, IsNotDate}
    ensures E.Accepts(r, E.FilterQuery(r, field, f), PackDoc(d))
            <==> M.Accepts(r, M.ClausesOf(r, field, f.condition, Operands(f.value)), d)
  {
    var os := Operands(f.value);
    PerValueMeaning(r, field, f, PackDoc(d));
    var days := M.Days(r, field, f.condition == IsNotDate, os);
    forall i | 0 <= i < |os|
      ensures (E.ClauseHolds(r, PackDoc(d), E.ValueClause(r, field, f.condition, E.ScaleOperand(r, field, os[i])))
               <==> f.condition == IsDate)
              <==> M.ClauseHolds(r, d, days[i])
    {
      assert E.ScaleOperand(r, field, os[i]) == os[i];
    }
  }

  lemma SingleRange(r: Readings, q: E.Query, d: Doc, c: E.Clause)
    requires q == E.Query([c], [])
    ensures E.Accepts(r, q, d) <==> E.ClauseHolds(r, d, c)
  {
    assert q.must[0] == c;
  }

  lemma SameReadout(r: Readings, field: string, os: seq<Operand>)
    requires !IsLong(field)
    ensures E.ScaleAll(r, field, os) == os
    ensures E.Starts(os, E.DayStart(r)) == M.DayStarts(r, os)
    ensures E.Ends(os, E.NextDayStart(r)) == M.NextDayStarts(r, os)
    ensures E.Starts(os, E.Whole(r)) == M.WholeStarts(r, os)
    ensures E.Ends(os, E.Whole(r)) == M.WholeEnds(r, os)
  {
  }

  /** Elastic closes a date window before its end, Mongo at its end. */
  lemma DateWindows(r: Readings, field: string, f: Filter, d: Doc)
    requires WholeCentDoc(d) && !IsLong(field) && f.condition in {AfterDate, BeforeDate, BetweenDates}
    ensures var os := Operands(f.value);
            var elastic := E.Accepts(r, E.FilterQuery(r, field, f), PackDoc(d));
            var mongo := M.Accepts(r, M.ClausesOf(r, field, f.condition, os), d);
            && (elastic ==> mongo)
            && (mongo && !elastic <==>
                mongo && f.condition == BetweenDates && field in d && d[field].When?
                && MinOf(M.NextDayStarts(r, os)) == Finite(d[field].ms as real))
  {
    var os := Operands(f.value);
    SameReadout(r, field, os);
    var clause := E.ClausesOf(r, field, f.condition, os)[0];
    SingleRange(r, E.FilterQuery(r, field, f), PackDoc(d), clause);
    var clauses := M.ClausesOf(r, field, f.condition, os);
    assert M.Accepts(r, clauses, d) <==> M.ClauseHolds(r, d, clauses[0]);
  }

  predicate ElasticAccepts(r: Readings, field: string, f: Filter, d: Doc) {
    E.Accepts(r, E.FilterQuery(r, field, f), PackDoc(d))
  }

  predicate MongoAccepts(r: Readings, field: string, f: Filter, d: Doc) {
    M.Accepts(r, M.ClausesOf(r, field, f.condition, Operands(f.value)), d)
  }

  ghost predicate IncludedEverywhere(r: Readings, field: string, f: Filter) {
    forall d: Doc | WholeCentDoc(d) :: ElasticAccepts(r, field, f, d) ==> MongoAccepts(r, field, f, d)
  }

  ghost predicate SameEverywhere(r: Readings, field: string, f: Filter) {
    forall d: Doc | WholeCentDoc(d) :: ElasticAccepts(r, field, f, d) <==> MongoAccepts(r, field, f, d)
  }

  // ---- between ----

  lemma CentReadout(r: Readings, field: string, os: seq<Operand>)
    requires IsLong(field)
    ensures E.Starts(E.ScaleAll(r, field, os), E.Whole(r)) == CentStarts(r, os)
    ensures E.Ends(E.ScaleAll(r, field, os), E.Whole(r)) == CentEnds(r, os)
  {
    var scaled := E.ScaleAll(r, field, os);
    forall i | 0 <= i < |os|
      ensures E.Starts(scaled, E.Whole(r))[i] == CentStarts(r, os)[i]
      ensures E.Ends(scaled, E.Whole(r))[i] == CentEnds(r, os)[i]
    {
      assert Start(scaled[i]) == Scaled(NumberOf(r, Start(os[i])) * 100.0);
      assert End(scaled[i]) == Scaled(NumberOf(r, End(os[i])) * 100.0);
    }
  }

  lemma BetweenClauses(r: Readings, field: string, f: Filter, d: Doc)
    requires f.condition == Between
    ensures var os := Operands(f.value);
            var scaled := E.ScaleAll(r, field, os);
            && (ElasticAccepts(r, field, f, d) <==>
                RangeHolds(PackDoc(d), field, NumberRange, Inclusive(MaxOf(E.Starts(scaled, E.Whole(r)))),
                           Inclusive(MinOf(E.Ends(scaled, E.Whole(r))))))
            && (MongoAccepts(r, field, f, d) <==>
                RangeHolds(d, field, NumberRange, Inclusive(MaxOf(M.WholeStarts(r, os))),
                           Inclusive(MinOf(M.WholeEnds(r, os)))))
  {
    var os := Operands(f.value);
    SingleRange(r, E.FilterQuery(r, field, f), PackDoc(d), E.ClausesOf(r, field, Between, E.ScaleAll(r, field, os))[0]);
    var clauses := M.ClausesOf(r, field, Between, os);
    assert M.Accepts(r, clauses, d) <==> M.ClauseHolds(r, d, clauses[0]);
  }

  /** On an amount each engine reads one closed range, in cents and in units. */
  lemma BetweenMeaning(r: Readings, field: string, f: Filter, d: Doc)
    requires f.condition == Between && IsLong(field) && WholeCentDoc(d) && Operands(f.value) != []
    ensures var os := Operands(f.value);
            && (ElasticAccepts(r, field, f, d) <==>
                field in d && Largest(CentStarts(r, os)) <= d[field].n * 100.0 <= Smallest(CentEnds(r, os)))
            && (MongoAccepts(r, field, f, d) <==>
                field in d && Largest(M.WholeStarts(r, os)) <= d[field].n <= Smallest(M.WholeEnds(r, os)))
  {
    BetweenClauses(r, field, f, d);
    CentReadout(r, field, Operands(f.value));
    if field in d {
      PackedNumber(d, field);
    }
  }

  lemma BetweenOn(r: Readings, field: string, f: Filter, d: Doc)
    requires WholeCentDoc(d) && f.condition == Between
    ensures var os := Operands(f.value);
            && (BetweenIncluded(r, field, os) ==> (ElasticAccepts(r, field, f, d) ==> MongoAccepts(r, field, f, d)))
            && (BetweenSame(r, field, os) ==> (ElasticAccepts(r, field, f, d) <==> MongoAccepts(r, field, f, d)))
  {
    var os := Operands(f.value);
    if IsLong(field) && os != [] {
      BetweenMeaning(r, field, f, d);
    } else {
      BetweenClauses(r, field, f, d);
      if IsLong(field) && field in d {
        PackedNumber(d, field);
      } else if !IsLong(field) {
        SameReadout(r, field, os);
      }
    }
  }

  /** A document that holds nothing but this many cents. */
  function CentsDoc(field: string, k: int): Doc {
    map[field := Num(Cents(k))]
  }

  lemma CentsDocIsWhole(field: string, k: int)
    ensures WholeCentDoc(CentsDoc(field, k))
  {
    RoundingWhole(k);
  }

  /** The bounds of both ranges are whole cents, so a document can sit on each. */
  lemma BoundsAreWhole(r: Readings, os: seq<Operand>)
    requires os != []
    ensures Largest(CentStarts(r, os)).Floor as real == Largest(CentStarts(r, os))
    ensures Smallest(CentEnds(r, os)).Floor as real == Smallest(CentEnds(r, os))
    ensures Largest(M.WholeStarts(r, os)).Floor as real == Largest(M.WholeStarts(r, os))
    ensures Smallest(M.WholeEnds(r, os)).Floor as real == Smallest(M.WholeEnds(r, os))
  {
  }

  lemma BetweenAtCents(r: Readings, field: string, f: Filter, k: int)
    requires f.condition == Between && IsLong(field) && Operands(f.value) != []
    ensures WholeCentDoc(CentsDoc(field, k))
    ensures var os := Operands(f.value);
            && (ElasticAccepts(r, field, f, CentsDoc(field, k)) <==>
                Largest(CentStarts(r, os)) <= k as real <= Smallest(CentEnds(r, os)))
            && (MongoAccepts(r, field, f, CentsDoc(field, k)) <==>
                100.0 * Largest(M.WholeStarts(r, os)) <= k as real <= 100.0 * Smallest(M.WholeEnds(r, os)))
  {
    CentsDocIsWhole(field, k);
    BetweenMeaning(r, field, f, CentsDoc(field, k));
  }

  /**
    Exactly when between keeps Elastic inside Mongo, and exactly when the two accept the same
    documents, read off the largest lower and the smallest upper bound, in cents and in units.
  */
  lemma BetweenExactly(r: Readings, field: string, f: Filter)
    requires f.condition == Between
    ensures IncludedEverywhere(r, field, f) <==> BetweenIncluded(r, field, Operands(f.value))
    ensures SameEverywhere(r, field, f) <==> BetweenSame(r, field, Operands(f.value))
  {
    var os := Operands(f.value);
    forall d: Doc | WholeCentDoc(d)
      ensures BetweenIncluded(r, field, os) ==> (ElasticAccepts(r, field, f, d) ==> MongoAccepts(r, field, f, d))
      ensures BetweenSame(r, field, os) ==> (ElasticAccepts(r, field, f, d) <==> MongoAccepts(r, field, f, d))
    {
      BetweenOn(r, field, f, d);
    }
    if IsLong(field) && os != [] {
      BoundsAreWhole(r, os);
      BetweenAtCents(r, field, f, Largest(CentStarts(r, os)).Floor);
      BetweenAtCents(r, field, f, Smallest(CentEnds(r, os)).Floor);
      BetweenAtCents(r, field, f, 100 * Largest(M.WholeStarts(r, os)).Floor);
      BetweenAtCents(r, field, f, 100 * Smallest(M.WholeEnds(r, os)).Floor);
    }
  }

  /** A single window: its bounds lose the same to parseInt in cents and in units, or it is empty in both. */
  lemma SingleWindowExactly(r: Readings, field: string, f: Filter, o: Operand)
    requires f == Filter(Between, Single(o)) && IsLong(field)
    ensures SameEverywhere(r, field, f) <==>
            || (CentAligned(r, Start(o)) && CentAligned(r, End(o)))
            || (Trunc(NumberOf(r, Start(o)) * 100.0) > Trunc(NumberOf(r, End(o)) * 100.0)
                && WholeOf(r, Start(o)) > WholeOf(r, End(o)))
  {
    SingleWindowSame(r, field, o);
    BetweenExactly(r, field, f);
  }

  lemma SingleBounds(r: Readings, o: Operand)
    ensures CentStarts(r, [o]) == [Trunc(NumberOf(r, Start(o)) * 100.0) as real]
    ensures CentEnds(r, [o]) == [Trunc(NumberOf(r, End(o)) * 100.0) as real]
    ensures M.WholeStarts(r, [o]) == [WholeOf(r, Start(o))] && M.WholeEnds(r, [o]) == [WholeOf(r, End(o))]
  {
  }

  lemma SingleWindowSame(r: Readings, field: string, o: Operand)
    requires IsLong(field)
    ensures BetweenSame(r, field, [o]) <==>
            || (CentAligned(r, Start(o)) && CentAligned(r, End(o)))
            || (Trunc(NumberOf(r, Start(o)) * 100.0) > Trunc(NumberOf(r, End(o)) * 100.0)
                && WholeOf(r, Start(o)) > WholeOf(r, End(o)))
  {
    SingleBounds(r, o);
    SameOfOne(Trunc(NumberOf(r, Start(o)) * 100.0), Trunc(NumberOf(r, End(o)) * 100.0),
              WholeOf(r, Start(o)), WholeOf(r, End(o)));
  }

  lemma SameOfOne(from: int, to: int, low: real, high: real)
    ensures Largest([from as real]) == from as real && Smallest([to as real]) == to as real
    ensures Largest([low]) == low && Smallest([high]) == high
  {
    LargestOfOne(from as real);
    LargestOfOne(to as real);
    LargestOfOne(low);
    LargestOfOne(high);
  }

  lemma LargestOfOne(x: real)
    ensures Largest([x]) == x == Smallest([x])
  {
  }

  // ---- isIn and isNotIn, which the Mongo list does not hold ----

  /** Mongo drops both conditions; Elastic asks for one of the values, or for none of them. */
  lemma MembershipMeaning(r: Readings, field: string, f: Filter, d: Doc)
    requires WholeCentDoc(d) && AsSent(Operands(f.value)) && f.condition in {IsIn, IsNotIn}
    ensures MongoAccepts(r, field, f, d)
    ensures var os := Operands(f.value);
            var listed := os == [] || exists i :: 0 <= i < |os| && MatchHolds(r, d, field, Start(os[i]));
            ElasticAccepts(r, field, f, d) <==> (f.condition == IsIn <==> listed)
  {
    var os := Operands(f.value);
    var lits := LiteralsOf(E.ScaleAll(r, field, os));
    var should := E.Should(field, lits);
    var q := E.FilterQuery(r, field, f);
    assert q == if f.condition == IsIn then E.Query([should], []) else E.Query([], [should]);
    assert f.condition == IsIn ==> q.must[0] == should;
    assert f.condition == IsNotIn ==> q.mustNot[0] == should;
    forall i | 0 <= i < |os|
      ensures MatchHolds(r, PackDoc(d), field, lits[i]) <==> MatchHolds(r, d, field, Start(os[i]))
    {
      ScaledMatch(r, d, field, os[i]);
    }
    if i :| 0 <= i < |os| && MatchHolds(r, d, field, Start(os[i])) {
      assert MatchHolds(r, PackDoc(d), field, lits[i]);
    }
  }

  lemma ScaledMatch(r: Readings, d: Doc, field: string, o: Operand)
    requires WholeCentDoc(d) && Start(o).Raw?
    ensures MatchHolds(r, PackDoc(d), field, Start(E.ScaleOperand(r, field, o))) <==> MatchHolds(r, d, field, Start(o))
  {
    if field in d && d[field].Num? {
      PackedNumber(d, field);
    }
  }

  /**
    isIn agrees everywhere exactly when it lists nothing; isNotIn exactly when it lists something on an
    amount and none of it is a whole number of cents, so that no document can hold it.
  */
  lemma MembershipExactly(r: Readings, field: string, f: Filter)
    requires AsSent(Operands(f.value)) && f.condition in {IsIn, IsNotIn}
    ensures f.condition == IsIn ==> (SameEverywhere(r, field, f) <==> Operands(f.value) == [])
    ensures f.condition == IsNotIn ==>
              (SameEverywhere(r, field, f) <==>
               Operands(f.value) != [] && IsLong(field) && NoneWholeCents(r, Operands(f.value)))
  {
    if f.condition == IsIn {
      IsInExactly(r, field, f);
    } else {
      IsNotInExactly(r, field, f);
    }
  }

  predicate NoneWholeCents(r: Readings, os: seq<Operand>) {
    forall i :: 0 <= i < |os| ==> !WholeCents(NumberOf(r, Start(os[i])))
  }

  lemma IsInExactly(r: Readings, field: string, f: Filter)
    requires AsSent(Operands(f.value)) && f.condition == IsIn
    ensures SameEverywhere(r, field, f) <==> Operands(f.value) == []
  {
    if Operands(f.value) == [] {
      forall d: Doc | WholeCentDoc(d) ensures ElasticAccepts(r, field, f, d) <==> MongoAccepts(r, field, f, d) {
        MembershipMeaning(r, field, f, d);
      }
    } else {
      var nothing: Doc := map[];
      assert WholeCentDoc(nothing);
      MembershipMeaning(r, field, f, nothing);
    }
  }

  lemma IsNotInExactly(r: Readings, field: string, f: Filter)
    requires AsSent(Operands(f.value)) && f.condition == IsNotIn
    ensures SameEverywhere(r, field, f) <==>
            Operands(f.value) != [] && IsLong(field) && NoneWholeCents(r, Operands(f.value))
  {
    var os := Operands(f.value);
    if os != [] && IsLong(field) && NoneWholeCents(r, os) {
      forall d: Doc | WholeCentDoc(d) ensures ElasticAccepts(r, field, f, d) <==> MongoAccepts(r, field, f, d) {
        MembershipMeaning(r, field, f, d);
      }
    } else {
      var held: Doc := map[];
      if os != [] {
        var i := if k :| 0 <= k < |os| && WholeCents(NumberOf(r, Start(os[k]))) then k else 0;
        held := map[field := Num(NumberOf(r, Start(os[i])))];
        assert MatchHolds(r, held, field, Start(os[i]));
      }
      assert WholeCentDoc(held);
      MembershipMeaning(r, field, f, held);
    }
  }

  // ---- all conditions ----

  /** Elastic never accepts more than Mongo, and the same where the condition is an agreeing one. */
  predicate Included(r: Readings, field: string, f: Filter, d: Doc) {
    && (ElasticAccepts(r, field, f, d) ==> MongoAccepts(r, field, f, d))
    && (Agreeing(r, field, f) ==> (MongoAccepts(r, field, f, d) ==> ElasticAccepts(r, field, f, d)))
  }

  lemma DatesIncluded(r: Readings, field: string, f: Filter, d: Doc)
    requires WholeCentDoc(d) && Comparable(r, field, f) && DateCondition(f.condition)
    ensures Included(r, field, f, d)
  {
    if f.condition in {IsDate, IsNotDate} {
      DayClauses(r, field, f, d);
    } else {
      DateWindows(r, field, f, d);
    }
  }

  lemma UnknownIncluded(r: Readings, field: string, f: Filter, d: Doc)
    requires f.condition in {IsIn, IsNotIn} || f.condition.UnknownCondition?
    ensures Included(r, field, f, d)
  {
    assert M.ClausesOf(r, field, f.condition, Operands(f.value)) == [];
    if f.condition.UnknownCondition? {
      assert E.FilterQuery(r, field, f) == E.NOTHING;
    }
  }

  lemma WordsIncluded(r: Readings, field: string, f: Filter, d: Doc)
    requires WholeCentDoc(d) && Comparable(r, field, f) && !f.value.Falsy?
    requires f.condition in {Is, IsNot, Contains, DoesNotContain, StartsWith, EndsWith}
    ensures Included(r, field, f, d)
  {
    TextIncluded(r, field, f, d);
  }

  lemma FilterIncluded(r: Readings, field: string, f: Filter, d: Doc)
    requires WholeCentDoc(d) && Comparable(r, field, f) && !f.value.Falsy?
    ensures Included(r, field, f, d)
  {
    if Comparison(f.condition) {
      ComparisonsAgree(r, field, f, d);
    } else if f.condition == Between {
      BetweenOn(r, field, f, d);
    } else if DateCondition(f.condition) {
      DatesIncluded(r, field, f, d);
    } else if f.condition in {IsIn, IsNotIn} || f.condition.UnknownCondition? {
      UnknownIncluded(r, field, f, d);
    } else {
      WordsIncluded(r, field, f, d);
    }
  }

  /** Several values: Elastic asks all of them, Mongo any of them; they part exactly on a mixed answer. */
  lemma TextIncluded(r: Readings, field: string, f: Filter, d: Doc)
    requires WholeCentDoc(d) && Comparable(r, field, f) && !f.value.Falsy?
    requires f.condition in {Is, IsNot, Contains, DoesNotContain, StartsWith, EndsWith}
    ensures var os := Operands(f.value);
            var elastic := E.Accepts(r, E.FilterQuery(r, field, f), PackDoc(d));
            var mongo := M.Accepts(r, M.ClausesOf(r, field, f.condition, os), d);
            && (elastic ==> mongo)
            && ((elastic <==> mongo) <==>
                E.Negative(f.condition)
                || forall i, j :: 0 <= i < |os| && 0 <= j < |os| ==>
                     (TextHolds(r, d, field, f.condition, os[i]) <==> TextHolds(r, d, field, f.condition, os[j])))
  {
    var os := Operands(f.value);
    if os == [] {
      EmptyMeaning(r, field, f.condition, d);
      assert E.FilterQuery(r, field, f) == E.FilterQuery(r, field, Filter(f.condition, Many([])));
      return;
    }
    ElasticText(r, field, f, d);
    MongoText(r, field, f, d);
    assert TextHolds(r, d, field, f.condition, os[0]) || !TextHolds(r, d, field, f.condition, os[0]);
  }

  lemma AcceptsPlus(r: Readings, a: E.Query, b: E.Query, d: Doc)
    ensures E.Accepts(r, E.Plus(a, b), d) <==> E.Accepts(r, a, d) && E.Accepts(r, b, d)
  {
    var q := E.Plus(a, b);
    assert forall i :: 0 <= i < |a.must| ==> q.must[i] == a.must[i];
    assert forall i :: 0 <= i < |b.must| ==> q.must[|a.must| + i] == b.must[i];
    assert forall i :: 0 <= i < |a.mustNot| ==> q.mustNot[i] == a.mustNot[i];
    assert forall i :: 0 <= i < |b.mustNot| ==> q.mustNot[|a.mustNot| + i] == b.mustNot[i];
  }

  lemma AcceptsAnd(r: Readings, a: seq<M.Clause>, b: seq<M.Clause>, d: Doc)
    ensures M.Accepts(r, a + b, d) <==> M.Accepts(r, a, d) && M.Accepts(r, b, d)
  {
    assert forall i :: 0 <= i < |a| ==> (a + b)[i] == a[i];
    assert forall i :: 0 <= i < |b| ==> (a + b)[|a| + i] == b[i];
  }

  lemma {:induction false} FieldIncluded(r: Readings, field: string, fs: seq<Filter>, d: Doc)
    requires WholeCentDoc(d) && forall f | f in fs :: Comparable(r, field, f)
    ensures var elastic := E.Accepts(r, E.FieldQuery(r, field, fs), PackDoc(d));
            var mongo := M.Accepts(r, M.FieldClauses(r, field, fs), d);
            && (elastic ==> mongo)
            && ((forall f | f in fs :: Agreeing(r, field, f)) ==> (mongo ==> elastic))
  {
    if fs != [] && !fs[0].value.Falsy? {
      FilterIncluded(r, field, fs[0], d);
      FieldIncluded(r, field, fs[1..], d);
      AcceptsPlus(r, E.FilterQuery(r, field, fs[0]), E.FieldQuery(r, field, fs[1..]), PackDoc(d));
      AcceptsAnd(r, M.ClausesOf(r, field, fs[0].condition, Operands(fs[0].value)), M.FieldClauses(r, field, fs[1..]), d);
    }
  }

  /**
    Every document the Elastic query accepts in its packed form is accepted by the Mongo query as it
    is stored, whatever the filters, fields and values; on the agreeing conditions the two accept the
    same documents.
  */
  lemma {:induction false} CompilersAgree(r: Readings, filters: FieldFilters, d: Doc)
    requires WholeCentDoc(d)
    requires forall p | p in filters :: forall f | f in p.1 :: Comparable(r, p.0, f)
    ensures var elastic := E.Accepts(r, E.QueryOf(r, filters), PackDoc(d));
            var mongo := M.Accepts(r, M.QueryOf(r, filters), d);
            && (elastic ==> mongo)
            && ((forall p | p in filters :: forall f | f in p.1 :: Agreeing(r, p.0, f)) ==> (mongo ==> elastic))
  {
    if filters != [] {
      var p := filters[0];
      FieldIncluded(r, p.0, p.1, d);
      CompilersAgree(r, filters[1..], d);
      AcceptsPlus(r, E.FieldQuery(r, p.0, p.1), E.QueryOf(r, filters[1..]), PackDoc(d));
      AcceptsAnd(r, M.FieldClauses(r, p.0, p.1), M.QueryOf(r, filters[1..]), d);
    }
  }

  /** Up to 10.50 keeps 10.20 in Elastic, while Mongo stops at 10. */
  lemma FractionalBetweenDiffers(r: Readings)
    requires r.number("10.5") == 10.5 && r.number("0") == 0.0
    requires r.whole("10.5") == 10 && r.whole("0") == 0
    ensures var f := Filter(Between, Single(Window(Raw("0"), Raw("10.5"))));
            ElasticAccepts(r, "total", f, CentsDoc("total", 1020)) && !MongoAccepts(r, "total", f, CentsDoc("total", 1020))
  {
    var o := Window(Raw("0"), Raw("10.5"));
    BetweenAtCents(r, "total", Filter(Between, Single(o)), 1020);
    SingleBounds(r, o);
    LargestOfOne(0.0);
    LargestOfOne(10.0);
    LargestOfOne(1050.0);
  }

  /** What a filter with an empty value list accepts, the date windows aside. */
  lemma EmptyMeaning(r: Readings, field: string, c: Condition, d: Doc)
    requires WholeCentDoc(d) && c !in {AfterDate, BeforeDate, BetweenDates, Between}
    ensures var f := Filter(c, Many([]));
            && (ElasticAccepts(r, field, f, d) <==> c != IsNotIn)
            && (MongoAccepts(r, field, f, d) <==>
                if c == Is then false
                else if Comparison(c) then field in d && d[field].Num?
                else true)
  {
    var f := Filter(c, Many([]));
    var q, clauses := E.FilterQuery(r, field, f), M.ClausesOf(r, field, c, []);
    if c in {IsIn, IsNotIn} {
      var should := E.Should(field, []);
      assert E.ScaleAll(r, field, []) == [] && LiteralsOf([]) == [];
      assert E.ClausesOf(r, field, c, []) == [should];
      assert q == if c == IsIn then E.Query([should], []) else E.Query([], [should]);
      assert E.ClauseHolds(r, PackDoc(d), should);
      assert c == IsNotIn ==> q.mustNot[0] == should;
    } else {
      assert q == E.NOTHING;
    }
    if clauses != [] {
      assert M.Accepts(r, clauses, d) <==> M.ClauseHolds(r, d, clauses[0]);
    }
  }

  /**
    With an empty value list, which is truthy and so compiled: inclusion and agreement fail on exactly
    these conditions.  (An empty date window throws in Elastic.)
  */
  lemma EmptyExactly(r: Readings, field: string, c: Condition)
    requires c !in {AfterDate, BeforeDate, BetweenDates}
    ensures var f := Filter(c, Many([]));
            && (IncludedEverywhere(r, field, f) <==>
                c !in {Is, GreaterThan, GreaterThanOrEqual, LessThan, LessThanOrEqual})
            && (SameEverywhere(r, field, f) <==>
                c !in {Is, GreaterThan, GreaterThanOrEqual, LessThan, LessThanOrEqual, IsNotIn})
  {
    var f := Filter(c, Many([]));
    if c == Between {
      BetweenExactly(r, field, f);
    } else {
      forall d: Doc | WholeCentDoc(d)
        ensures (ElasticAccepts(r, field, f, d) <==> MongoAccepts(r, field, f, d)) <==>
                if c == Is then false
                else if Comparison(c) then field in d && d[field].Num?
                else c != IsNotIn
      {
        EmptyMeaning(r, field, c, d);
      }
      var nothing: Doc := map[];
      assert WholeCentDoc(nothing);
      EmptyMeaning(r, field, c, nothing);
      assert c == IsNotIn ==> forall d: Doc | WholeCentDoc(d) :: !ElasticAccepts(r, field, f, d) by {
        forall d: Doc | WholeCentDoc(d) ensures c == IsNotIn ==> !ElasticAccepts(r, field, f, d) {
          EmptyMeaning(r, field, c, d);
        }
      }
    }
  }

  /**
    A single filter with values as sent: Elastic stays inside Mongo on every document exactly when the
    filter is comparable.  Dates on amounts and empty date windows are not compared.
  */
  lemma ComparableExactly(r: Readings, field: string, f: Filter)
    requires !f.value.Falsy? && AsSent(Operands(f.value))
    requires DateCondition(f.condition) ==> !IsLong(field)
    requires f.condition in {AfterDate, BeforeDate, BetweenDates} ==> Operands(f.value) != []
    ensures IncludedEverywhere(r, field, f) <==> Comparable(r, field, f)
  {
    if Comparable(r, field, f) {
      forall d: Doc | WholeCentDoc(d) ensures ElasticAccepts(r, field, f, d) ==> MongoAccepts(r, field, f, d) {
        FilterIncluded(r, field, f, d);
      }
    } else if f.condition == Between {
      BetweenExactly(r, field, f);
    } else {
      assert f == Filter(f.condition, Many([]));
      EmptyExactly(r, field, f.condition);
    }
  }
}
