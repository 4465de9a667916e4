/**
  What each engine accepts, said over the texts a client sends: the values of a filter, every one of
  them, and the filters of every field up to the first one without a value.
*/
module QueryMeaning {
  import opened Filters
  import opened Money
  import opened QueryAgreement
  import E = ElasticCompiler
  import M = MongoCompiler

  /** Plain values and windows, as they are sent. */
  function Values(texts: seq<string>): seq<Operand> {
    seq(|texts|, i requires 0 <= i < |texts| => Plain(Raw(texts[i])))
  }

  function Windows(froms: seq<string>, tos: seq<string>): seq<Operand>
    requires |froms| == |tos|
  {
    seq(|froms|, i requires 0 <= i < |froms| => Window(Raw(froms[i]), Raw(tos[i])))
  }

  /** One filter on one field, asked of a document in its packed form and as it is stored. */
  predicate Elastic(r: Readings, field: string, f: Filter, d: Doc) {
    E.Accepts(r, E.FieldQuery(r, field, [f]), PackDoc(d))
  }

  predicate Mongo(r: Readings, field: string, f: Filter, d: Doc) {
    M.Accepts(r, M.FieldClauses(r, field, [f]), d)
  }

  lemma OneFilter(r: Readings, field: string, f: Filter, d: Doc)
    requires !f.value.Falsy?
    ensures Elastic(r, field, f, d) <==> ElasticAccepts(r, field, f, d)
    ensures Mongo(r, field, f, d) <==> MongoAccepts(r, field, f, d)
  {
    assert [f][1..] == [];
    assert E.FieldQuery(r, field, [f]) == E.Plus(E.FilterQuery(r, field, f), E.NOTHING);
    AcceptsPlus(r, E.FilterQuery(r, field, f), E.NOTHING, PackDoc(d));
    assert M.FieldClauses(r, field, [f]) == M.ClausesOf(r, field, f.condition, Operands(f.value)) + [];
    AcceptsAnd(r, M.ClausesOf(r, field, f.condition, Operands(f.value)), [], d);
  }

  /** A value that is not an array is wrapped into one. */
  lemma SingleIsOneOfMany(r: Readings, field: string, c: Condition, o: Operand, d: Doc)
    ensures Elastic(r, field, Filter(c, Single(o)), d) <==> Elastic(r, field, Filter(c, Many([o])), d)
    ensures Mongo(r, field, Filter(c, Single(o)), d) <==> Mongo(r, field, Filter(c, Many([o])), d)
  {
    OneFilter(r, field, Filter(c, Single(o)), d);
    OneFilter(r, field, Filter(c, Many([o])), d);
  }

  /** A comparison with one value. */
  predicate Compared(r: Readings, d: Doc, field: string, c: Condition, text: string) {
    && field in d && d[field].Num?
    && (c == GreaterThan ==> d[field].n > r.number(text))
    && (c == GreaterThanOrEqual ==> d[field].n >= r.number(text))
    && (c == LessThan ==> d[field].n < r.number(text))
    && (c == LessThanOrEqual ==> d[field].n <= r.number(text))
  }

  lemma ComparedValue(r: Readings, d: Doc, field: string, c: Condition, text: string)
    requires WholeCentDoc(d) && Comparison(c)
    ensures E.ClauseHolds(r, PackDoc(d), E.ValueClause(r, field, c, E.ScaleOperand(r, field, Plain(Raw(text)))))
            <==> Compared(r, d, field, c, text)
    ensures Compared(r, d, field, c, text) <==>
            field in d && d[field].Num? && Compares(c, d[field].n, NumberOf(r, Start(Plain(Raw(text)))))
  {
    ScaledComparison(r, d, field, Plain(Raw(text)), c);
  }

  /** A comparison is asked with every value; Mongo asks for a number even where none is given. */
  lemma ComparisonMeaning(r: Readings, field: string, c: Condition, texts: seq<string>, d: Doc)
    requires WholeCentDoc(d) && c in {GreaterThan, GreaterThanOrEqual, LessThan, LessThanOrEqual}
    ensures var f := Filter(c, Many(Values(texts)));
            var all := forall i :: 0 <= i < |texts| ==> Compared(r, d, field, c, texts[i]);
            && (Elastic(r, field, f, d) <==> all)
            && (Mongo(r, field, f, d) <==> field in d && d[field].Num? && all)
  {
    var f, os := Filter(c, Many(Values(texts))), Values(texts);
    OneFilter(r, field, f, d);
    PerValueMeaning(r, field, f, PackDoc(d));
    MongoComparison(r, field, c, os, d);
    forall i | 0 <= i < |texts|
      ensures E.ClauseHolds(r, PackDoc(d), E.ValueClause(r, field, c, E.ScaleOperand(r, field, os[i])))
              <==> Compared(r, d, field, c, texts[i])
      ensures Compared(r, d, field, c, texts[i]) <==>
              field in d && d[field].Num? && Compares(c, d[field].n, NumberOf(r, Start(os[i])))
    {
      ComparedValue(r, d, field, c, texts[i]);
    }
  }

  /** A number of that value, or a text that holds it as a phrase. */
  predicate Says(r: Readings, d: Doc, field: string, text: string) {
    && field in d && !d[field].When?
    && (d[field].Num? ==> d[field].n == r.number(text))
    && (d[field].Text? ==> r.matches(Phrase, d[field].s, text))
  }

  /** is: all of the values in Elastic, one of them in Mongo; isNot: none of them in either. */
  lemma IsMeaning(r: Readings, field: string, texts: seq<string>, d: Doc)
    requires WholeCentDoc(d)
    ensures Elastic(r, field, Filter(Is, Many(Values(texts))), d) <==>
            forall i :: 0 <= i < |texts| ==> Says(r, d, field, texts[i])
    ensures Mongo(r, field, Filter(Is, Many(Values(texts))), d) <==>
            exists i :: 0 <= i < |texts| && Says(r, d, field, texts[i])
    ensures Elastic(r, field, Filter(IsNot, Many(Values(texts))), d) <==>
            forall i :: 0 <= i < |texts| ==> !Says(r, d, field, texts[i])
    ensures Mongo(r, field, Filter(IsNot, Many(Values(texts))), d) <==>
            forall i :: 0 <= i < |texts| ==> !Says(r, d, field, texts[i])
  {
    forall c | c in {Is, IsNot}
      ensures Elastic(r, field, Filter(c, Many(Values(texts))), d) <==>
              forall i :: 0 <= i < |texts| ==> (Says(r, d, field, texts[i]) <==> c == Is)
      ensures Mongo(r, field, Filter(c, Many(Values(texts))), d) <==>
              if c == Is then exists i :: 0 <= i < |texts| && Says(r, d, field, texts[i])
              else forall i :: 0 <= i < |texts| ==> !Says(r, d, field, texts[i])
    {
      WordMeaning(r, field, c, texts, d);
    }
  }

  /** What one value of a text condition asks of a document. */
  predicate Word(r: Readings, d: Doc, field: string, c: Condition, text: string) {
    if c == Is || c == IsNot then Says(r, d, field, text)
    else Holds(r, d, field, PatternOf(c), text)
  }

  predicate Holds(r: Readings, d: Doc, field: string, pattern: Pattern, text: string) {
    field in d && d[field].Text? && r.matches(pattern, d[field].s, text)
  }

  lemma WordMeaning(r: Readings, field: string, c: Condition, texts: seq<string>, d: Doc)
    requires WholeCentDoc(d) && c in {Is, IsNot, Contains, DoesNotContain, StartsWith, EndsWith}
    ensures var f := Filter(c, Many(Values(texts)));
            var negative := c in {IsNot, DoesNotContain};
            && (Elastic(r, field, f, d) <==>
                forall i :: 0 <= i < |texts| ==> (Word(r, d, field, c, texts[i]) <==> !negative))
            && (Mongo(r, field, f, d) <==>
                if negative then forall i :: 0 <= i < |texts| ==> !Word(r, d, field, c, texts[i])
                else (texts == [] && c != Is) || exists i :: 0 <= i < |texts| && Word(r, d, field, c, texts[i]))
  {
    var f, os := Filter(c, Many(Values(texts))), Values(texts);
    OneFilter(r, field, f, d);
    ElasticText(r, field, f, d);
    forall i | 0 <= i < |texts| ensures TextHolds(r, d, field, c, os[i]) <==> Word(r, d, field, c, texts[i]) {
      assert Start(os[i]) == Raw(texts[i]);
    }
    if texts == [] {
      assert os == [];
      EmptyMeaning(r, field, c, d);
    } else {
      MongoText(r, field, f, d);
      if i :| 0 <= i < |texts| && Word(r, d, field, c, texts[i]) {
        assert TextHolds(r, d, field, c, os[i]);
      }
    }
  }

  /** contains, startsWith and endsWith: all in Elastic, one in Mongo (any document where none is given). */
  lemma PatternMeaning(r: Readings, field: string, c: Condition, texts: seq<string>, d: Doc)
    requires WholeCentDoc(d) && c in {Contains, DoesNotContain, StartsWith, EndsWith}
    ensures var pattern := if c == StartsWith then AtStart else if c == EndsWith then AtEnd else Anywhere;
            var f := Filter(c, Many(Values(texts)));
            && (Elastic(r, field, f, d) <==>
                forall i :: 0 <= i < |texts| ==> (Holds(r, d, field, pattern, texts[i]) <==> c != DoesNotContain))
            && (Mongo(r, field, f, d) <==>
                if c == DoesNotContain then forall i :: 0 <= i < |texts| ==> !Holds(r, d, field, pattern, texts[i])
                else texts == [] || exists i :: 0 <= i < |texts| && Holds(r, d, field, pattern, texts[i]))
  {
    WordMeaning(r, field, c, texts, d);
    if i :| 0 <= i < |texts| && Holds(r, d, field, PatternOf(c), texts[i]) {
      assert Word(r, d, field, c, texts[i]);
    }
  }

  /** A number of that value, or a text with any of its terms. */
  predicate Lists(r: Readings, d: Doc, field: string, text: string) {
    && field in d && !d[field].When?
    && (d[field].Num? ==> d[field].n == r.number(text))
    && (d[field].Text? ==> r.matches(AnyTerm, d[field].s, text))
  }

  /** isIn: one of the values, or any document where none is given; isNotIn: none of them; Mongo asks nothing. */
  lemma IsInMeaning(r: Readings, field: string, texts: seq<string>, d: Doc)
    requires WholeCentDoc(d)
    ensures var listed := texts == [] || exists i :: 0 <= i < |texts| && Lists(r, d, field, texts[i]);
            && (Elastic(r, field, Filter(IsIn, Many(Values(texts))), d) <==> listed)
            && (Elastic(r, field, Filter(IsNotIn, Many(Values(texts))), d) <==> !listed)
            && Mongo(r, field, Filter(IsIn, Many(Values(texts))), d)
            && Mongo(r, field, Filter(IsNotIn, Many(Values(texts))), d)
  {
    var os := Values(texts);
    forall i | 0 <= i < |texts|
      ensures MatchHolds(r, d, field, Start(os[i])) <==> Lists(r, d, field, texts[i])
    {
      assert Start(os[i]) == Raw(texts[i]);
    }
    if i :| 0 <= i < |texts| && Lists(r, d, field, texts[i]) {
      assert MatchHolds(r, d, field, Start(os[i]));
    }
    OneFilter(r, field, Filter(IsIn, Many(os)), d);
    MembershipMeaning(r, field, Filter(IsIn, Many(os)), d);
    OneFilter(r, field, Filter(IsNotIn, Many(os)), d);
    MembershipMeaning(r, field, Filter(IsNotIn, Many(os)), d);
    assert texts == [] <==> os == [];
  }

  function Cut(r: Readings, texts: seq<string>): seq<real> {
    seq(|texts|, i requires 0 <= i < |texts| => r.whole(texts[i]) as real)
  }

  function CutCents(r: Readings, texts: seq<string>): seq<real> {
    seq(|texts|, i requires 0 <= i < |texts| => Trunc(r.number(texts[i]) * 100.0) as real)
  }

  lemma BoundsRead(r: Readings, field: string, froms: seq<string>, tos: seq<string>)
    requires |froms| == |tos|
    ensures var os := Windows(froms, tos);
            && M.WholeStarts(r, os) == Cut(r, froms) && M.WholeEnds(r, os) == Cut(r, tos)
            && E.Starts(E.ScaleAll(r, field, os), E.Whole(r)) ==
               (if IsLong(field) then CutCents(r, froms) else Cut(r, froms))
            && E.Ends(E.ScaleAll(r, field, os), E.Whole(r)) ==
               (if IsLong(field) then CutCents(r, tos) else Cut(r, tos))
  {
    var os := Windows(froms, tos);
    forall i | 0 <= i < |froms|
      ensures M.WholeStarts(r, os)[i] == Cut(r, froms)[i] && M.WholeEnds(r, os)[i] == Cut(r, tos)[i]
    {
      assert Start(os[i]) == Raw(froms[i]) && End(os[i]) == Raw(tos[i]);
    }
    if IsLong(field) {
      CentReadout(r, field, os);
      assert CentStarts(r, os) == CutCents(r, froms);
      assert CentEnds(r, os) == CutCents(r, tos);
    } else {
      SameReadout(r, field, os);
    }
  }

  /** Inside one window, as Elastic reads it (the bounds of an amount in cents) and as Mongo does (in units). */
  predicate InsideCents(r: Readings, field: string, n: real, from: string, to: string) {
    if IsLong(field) then Trunc(r.number(from) * 100.0) as real <= n * 100.0 <= Trunc(r.number(to) * 100.0) as real
    else InsideUnits(r, n, from, to)
  }

  predicate InsideUnits(r: Readings, n: real, from: string, to: string) {
    r.whole(from) as real <= n <= r.whole(to) as real
  }

  /** between: a number inside every window. */
  lemma BetweenTexts(r: Readings, field: string, froms: seq<string>, tos: seq<string>, d: Doc)
    requires WholeCentDoc(d) && |froms| == |tos|
    ensures var f := Filter(Between, Many(Windows(froms, tos)));
            && (Elastic(r, field, f, d) <==>
                && field in d && d[field].Num?
                && forall i :: 0 <= i < |froms| ==> InsideCents(r, field, d[field].n, froms[i], tos[i]))
            && (Mongo(r, field, f, d) <==>
                && field in d && d[field].Num?
                && forall i :: 0 <= i < |froms| ==> InsideUnits(r, d[field].n, froms[i], tos[i]))
  {
    var f := Filter(Between, Many(Windows(froms, tos)));
    OneFilter(r, field, f, d);
    BetweenClauses(r, field, f, d);
    BoundsRead(r, field, froms, tos);
    InUnits(r, field, froms, tos, d);
    if IsLong(field) {
      InCents(r, field, froms, tos, d);
    } else {
      assert field in d ==> PackDoc(d)[field] == d[field];
    }
  }

  lemma InUnits(r: Readings, field: string, froms: seq<string>, tos: seq<string>, d: Doc)
    requires |froms| == |tos|
    ensures RangeHolds(d, field, NumberRange, Inclusive(MaxOf(Cut(r, froms))), Inclusive(MinOf(Cut(r, tos)))) <==>
            && field in d && d[field].Num?
            && forall i :: 0 <= i < |froms| ==> InsideUnits(r, d[field].n, froms[i], tos[i])
  {
    if field in d && d[field].Num? {
      AboveMax(d[field].n, Cut(r, froms));
      BelowMin(d[field].n, Cut(r, tos));
      UnitsPairs(r, froms, tos, d[field].n);
    }
  }

  lemma UnitsPairs(r: Readings, froms: seq<string>, tos: seq<string>, n: real)
    requires |froms| == |tos|
    ensures (forall i :: 0 <= i < |froms| ==> InsideUnits(r, n, froms[i], tos[i])) <==>
            && (forall i :: 0 <= i < |Cut(r, froms)| ==> n >= Cut(r, froms)[i])
            && (forall i :: 0 <= i < |Cut(r, tos)| ==> n <= Cut(r, tos)[i])
  {
    if forall i :: 0 <= i < |froms| ==> InsideUnits(r, n, froms[i], tos[i]) {
      forall i | 0 <= i < |froms| ensures Cut(r, froms)[i] <= n <= Cut(r, tos)[i] {
        assert InsideUnits(r, n, froms[i], tos[i]);
      }
    } else {
      var i :| 0 <= i < |froms| && !InsideUnits(r, n, froms[i], tos[i]);
      assert n < Cut(r, froms)[i] || Cut(r, tos)[i] < n;
    }
  }

  lemma InCents(r: Readings, field: string, froms: seq<string>, tos: seq<string>, d: Doc)
    requires WholeCentDoc(d) && |froms| == |tos| && IsLong(field)
    ensures RangeHolds(PackDoc(d), field, NumberRange, Inclusive(MaxOf(CutCents(r, froms))),
                       Inclusive(MinOf(CutCents(r, tos)))) <==>
            && field in d && d[field].Num?
            && forall i :: 0 <= i < |froms| ==> InsideCents(r, field, d[field].n, froms[i], tos[i])
  {
    if field in d && d[field].Num? {
      PackedNumber(d, field);
      AboveMax(d[field].n * 100.0, CutCents(r, froms));
      BelowMin(d[field].n * 100.0, CutCents(r, tos));
      CentsPairs(r, field, froms, tos, d[field].n);
    }
  }

  lemma CentsPairs(r: Readings, field: string, froms: seq<string>, tos: seq<string>, n: real)
    requires |froms| == |tos| && IsLong(field)
    ensures (forall i :: 0 <= i < |froms| ==> InsideCents(r, field, n, froms[i], tos[i])) <==>
            && (forall i :: 0 <= i < |CutCents(r, froms)| ==> n * 100.0 >= CutCents(r, froms)[i])
            && (forall i :: 0 <= i < |CutCents(r, tos)| ==> n * 100.0 <= CutCents(r, tos)[i])
  {
    if forall i :: 0 <= i < |froms| ==> InsideCents(r, field, n, froms[i], tos[i]) {
      forall i | 0 <= i < |froms| ensures CutCents(r, froms)[i] <= n * 100.0 <= CutCents(r, tos)[i] {
        assert InsideCents(r, field, n, froms[i], tos[i]);
      }
    } else {
      var i :| 0 <= i < |froms| && !InsideCents(r, field, n, froms[i], tos[i]);
      assert n * 100.0 < CutCents(r, froms)[i] || CutCents(r, tos)[i] < n * 100.0;
    }
  }

  /** A date of the field, in milliseconds. */
  predicate Dated(d: Doc, field: string) {
    field in d && d[field].When?
  }

  function DaysOf(r: Readings, texts: seq<string>): seq<real> {
    seq(|texts|, i requires 0 <= i < |texts| => r.dayStart(texts[i]) as real)
  }

  function NextDaysOf(r: Readings, texts: seq<string>): seq<real> {
    seq(|texts|, i requires 0 <= i < |texts| => r.nextDayStart(texts[i]) as real)
  }

  /** In one date window: from the start of its first day, and before, or in Mongo at, the end of its last. */
  predicate InDates(r: Readings, c: Condition, ms: int, from: string, to: string, closed: bool) {
    && (c != BeforeDate ==> r.dayStart(from) <= ms)
    && (c != AfterDate ==> if closed then ms <= r.nextDayStart(to) else ms < r.nextDayStart(to))
  }

  /** The date windows: a date in every one of them; Mongo includes the closing instant of betweenDates. */
  lemma DateWindowTexts(r: Readings, field: string, c: Condition, froms: seq<string>, tos: seq<string>, d: Doc)
    requires WholeCentDoc(d) && !IsLong(field) && |froms| == |tos| && c in {AfterDate, BeforeDate, BetweenDates}
    ensures var f := Filter(c, Many(Windows(froms, tos)));
            && (Elastic(r, field, f, d) <==>
                && Dated(d, field)
                && forall i :: 0 <= i < |froms| ==> InDates(r, c, d[field].ms, froms[i], tos[i], false))
            && (Mongo(r, field, f, d) <==>
                && Dated(d, field)
                && forall i :: 0 <= i < |froms| ==> InDates(r, c, d[field].ms, froms[i], tos[i], c == BetweenDates))
  {
    var f, os := Filter(c, Many(Windows(froms, tos))), Windows(froms, tos);
    OneFilter(r, field, f, d);
    DateClauses(r, field, f, d);
    DatesRead(r, froms, tos);
    InDateRange(r, field, c, froms, tos, d, false);
    InDateRange(r, field, c, froms, tos, d, c == BetweenDates);
  }

  lemma DatesRead(r: Readings, froms: seq<string>, tos: seq<string>)
    requires |froms| == |tos|
    ensures M.DayStarts(r, Windows(froms, tos)) == DaysOf(r, froms)
    ensures M.NextDayStarts(r, Windows(froms, tos)) == NextDaysOf(r, tos)
  {
    var os := Windows(froms, tos);
    forall i | 0 <= i < |froms|
      ensures M.DayStarts(r, os)[i] == DaysOf(r, froms)[i] && M.NextDayStarts(r, os)[i] == NextDaysOf(r, tos)[i]
    {
      assert Start(os[i]) == Raw(froms[i]) && End(os[i]) == Raw(tos[i]);
      assert TextOf(Raw(froms[i])) == froms[i] && TextOf(Raw(tos[i])) == tos[i];
      assert M.DayStarts(r, os)[i] == r.dayStart(TextOf(Start(os[i]))) as real;
      assert M.NextDayStarts(r, os)[i] == r.nextDayStart(TextOf(End(os[i]))) as real;
    }
  }

  lemma InDateRange(r: Readings, field: string, c: Condition, froms: seq<string>, tos: seq<string>, d: Doc, closed: bool)
    requires |froms| == |tos|
    ensures var after := if c == BeforeDate then Unbounded else Inclusive(MaxOf(DaysOf(r, froms)));
            var next := MinOf(NextDaysOf(r, tos));
            var before := if c == AfterDate then Unbounded else if closed then Inclusive(next) else Exclusive(next);
            RangeHolds(d, field, DateRange, after, before) <==>
            && Dated(d, field)
            && forall i :: 0 <= i < |froms| ==> InDates(r, c, d[field].ms, froms[i], tos[i], closed)
  {
    if Dated(d, field) {
      AboveMax(d[field].ms as real, DaysOf(r, froms));
      BelowMin(d[field].ms as real, NextDaysOf(r, tos));
      DatePairs(r, c, froms, tos, d[field].ms, closed);
    }
  }

  lemma DatePairs(r: Readings, c: Condition, froms: seq<string>, tos: seq<string>, ms: int, closed: bool)
    requires |froms| == |tos|
    ensures (forall i :: 0 <= i < |froms| ==> InDates(r, c, ms, froms[i], tos[i], closed)) <==>
            && (c != BeforeDate ==> forall i :: 0 <= i < |froms| ==> DaysOf(r, froms)[i] <= ms as real)
            && (c != AfterDate && closed ==> forall i :: 0 <= i < |tos| ==> ms as real <= NextDaysOf(r, tos)[i])
            && (c != AfterDate && !closed ==> forall i :: 0 <= i < |tos| ==> (ms as real) < NextDaysOf(r, tos)[i])
  {
    if forall i :: 0 <= i < |froms| ==> InDates(r, c, ms, froms[i], tos[i], closed) {
      forall i | 0 <= i < |froms|
        ensures c != BeforeDate ==> DaysOf(r, froms)[i] <= ms as real
        ensures c != AfterDate && closed ==> ms as real <= NextDaysOf(r, tos)[i]
        ensures c != AfterDate && !closed ==> (ms as real) < NextDaysOf(r, tos)[i]
      {
        assert InDates(r, c, ms, froms[i], tos[i], closed);
      }
    } else {
      var i :| 0 <= i < |froms| && !InDates(r, c, ms, froms[i], tos[i], closed);
      assert DaysOf(r, froms)[i] == r.dayStart(froms[i]) as real;
      assert NextDaysOf(r, tos)[i] == r.nextDayStart(tos[i]) as real;
    }
  }

  lemma DateClauses(r: Readings, field: string, f: Filter, d: Doc)
    requires WholeCentDoc(d) && !IsLong(field) && f.condition in {AfterDate, BeforeDate, BetweenDates}
    ensures var os := Operands(f.value);
            var after := if f.condition == BeforeDate then Unbounded else Inclusive(MaxOf(M.DayStarts(r, os)));
            var next := MinOf(M.NextDayStarts(r, os));
            && (ElasticAccepts(r, field, f, d) <==>
                RangeHolds(d, field, DateRange, after, if f.condition == AfterDate then Unbounded else Exclusive(next)))
            && (MongoAccepts(r, field, f, d) <==>
                RangeHolds(d, field, DateRange, after, if f.condition == AfterDate then Unbounded
                                                       else if f.condition == BeforeDate then Exclusive(next)
                                                       else Inclusive(next)))
  {
    var os := Operands(f.value);
    SameReadout(r, field, os);
    SingleRange(r, E.FilterQuery(r, field, f), PackDoc(d), E.ClausesOf(r, field, f.condition, os)[0]);
    var clauses := M.ClausesOf(r, field, f.condition, os);
    assert M.Accepts(r, clauses, d) <==> M.ClauseHolds(r, d, clauses[0]);
    assert field in d ==> PackDoc(d)[field] == d[field];
  }

  /** isDate: on every one of the days; isNotDate: on none of them. */
  lemma DayTexts(r: Readings, field: string, c: Condition, texts: seq<string>, d: Doc)
    requires WholeCentDoc(d) && !IsLong(field) && c in {IsDate, IsNotDate}
    ensures var f := Filter(c, Many(Values(texts)));
            var all := forall i :: 0 <= i < |texts| ==> (OnDay(r, d, field, texts[i]) <==> c == IsDate);
            (Elastic(r, field, f, d) <==> all) && (Mongo(r, field, f, d) <==> all)
  {
    var f, os := Filter(c, Many(Values(texts))), Values(texts);
    OneFilter(r, field, f, d);
    DayClauses(r, field, f, d);
    PerValueMeaning(r, field, f, PackDoc(d));
    forall i | 0 <= i < |texts|
      ensures E.ClauseHolds(r, PackDoc(d), E.ValueClause(r, field, c, E.ScaleOperand(r, field, os[i])))
              <==> OnDay(r, d, field, texts[i])
    {
      DayValue(r, field, c, texts[i], d);
    }
  }

  lemma DayValue(r: Readings, field: string, c: Condition, text: string, d: Doc)
    requires WholeCentDoc(d) && !IsLong(field) && c in {IsDate, IsNotDate}
    ensures E.ClauseHolds(r, PackDoc(d), E.ValueClause(r, field, c, E.ScaleOperand(r, field, Plain(Raw(text)))))
            <==> OnDay(r, d, field, text)
  {
    var clause := E.ValueClause(r, field, c, Plain(Raw(text)));
    assert Start(Plain(Raw(text))) == Raw(text) && TextOf(Raw(text)) == text;
    assert E.DayStart(r)(Raw(text)) == r.dayStart(text) as real;
    assert E.NextDayStart(r)(Raw(text)) == r.nextDayStart(text) as real;
    assert clause == E.Range(field, DateRange, Inclusive(Finite(r.dayStart(text) as real)),
                             Exclusive(Finite(r.nextDayStart(text) as real)));
    assert field in d ==> PackDoc(d)[field] == d[field];
  }

  predicate OnDay(r: Readings, d: Doc, field: string, text: string) {
    Dated(d, field) && r.dayStart(text) <= d[field].ms < r.nextDayStart(text)
  }

  /** A condition neither list holds asks nothing. */
  lemma UnknownAsksNothing(r: Readings, field: string, name: string, v: FilterValue, d: Doc)
    requires !v.Falsy?
    ensures Elastic(r, field, Filter(UnknownCondition(name), v), d) && Mongo(r, field, Filter(UnknownCondition(name), v), d)
  {
    OneFilter(r, field, Filter(UnknownCondition(name), v), d);
  }

  // ---- several filters and fields ----

  /** A filter of one field that is reached: it has a value, and so has every one before it. */
  predicate Reached(fs: seq<Filter>, i: int) {
    0 <= i < |fs| && forall j :: 0 <= j <= i ==> !fs[j].value.Falsy?
  }

  lemma {:induction false} FieldMeaning(r: Readings, field: string, fs: seq<Filter>, d: Doc)
    ensures E.Accepts(r, E.FieldQuery(r, field, fs), PackDoc(d)) <==> FieldElastic(r, field, fs, d)
    ensures M.Accepts(r, M.FieldClauses(r, field, fs), d) <==> FieldMongo(r, field, fs, d)
  {
    if fs == [] || fs[0].value.Falsy? {
      NoneReached(fs);
    } else {
      FieldMeaning(r, field, fs[1..], d);
      OneFilter(r, field, fs[0], d);
      FirstAndRest(r, field, fs, d);
      AcceptsPlus(r, E.FilterQuery(r, field, fs[0]), E.FieldQuery(r, field, fs[1..]), PackDoc(d));
      AcceptsAnd(r, M.ClausesOf(r, field, fs[0].condition, Operands(fs[0].value)), M.FieldClauses(r, field, fs[1..]), d);
    }
  }

  lemma NoneReached(fs: seq<Filter>)
    requires fs == [] || fs[0].value.Falsy?
    ensures forall i | 0 <= i < |fs| :: !Reached(fs, i)
  {
    forall i | 0 <= i < |fs| ensures !Reached(fs, i) {
      assert fs[0].value.Falsy?;
    }
  }

  lemma FirstAndRest(r: Readings, field: string, fs: seq<Filter>, d: Doc)
    requires fs != [] && !fs[0].value.Falsy?
    ensures FieldElastic(r, field, fs, d) <==> Elastic(r, field, fs[0], d) && FieldElastic(r, field, fs[1..], d)
    ensures FieldMongo(r, field, fs, d) <==> Mongo(r, field, fs[0], d) && FieldMongo(r, field, fs[1..], d)
  {
    var rest := fs[1..];
    assert Reached(fs, 0);
    forall i | 0 <= i < |rest| ensures (Reached(rest, i) <==> Reached(fs, i + 1)) && fs[i + 1] == rest[i] {
      ReachedNext(fs, i);
    }
    assert forall i :: 1 <= i < |fs| ==> fs[i] == rest[i - 1] && (Reached(fs, i) <==> Reached(rest, i - 1));
  }

  lemma ReachedNext(fs: seq<Filter>, i: nat)
    requires i + 1 < |fs| && !fs[0].value.Falsy?
    ensures Reached(fs[1..], i) <==> Reached(fs, i + 1)
  {
    var rest := fs[1..];
    assert forall j :: 0 <= j < |rest| ==> rest[j] == fs[j + 1];
    if Reached(rest, i) {
      forall j | 0 <= j <= i + 1 ensures !fs[j].value.Falsy? {
        assert j == 0 || fs[j] == rest[j - 1];
      }
    }
  }

  /** Every reached filter of every field, asked of Elastic and of Mongo. */
  predicate AllElastic(r: Readings, filters: FieldFilters, d: Doc) {
    forall k :: 0 <= k < |filters| ==> FieldElastic(r, filters[k].0, filters[k].1, d)
  }

  predicate AllMongo(r: Readings, filters: FieldFilters, d: Doc) {
    forall k :: 0 <= k < |filters| ==> FieldMongo(r, filters[k].0, filters[k].1, d)
  }

  predicate FieldElastic(r: Readings, field: string, fs: seq<Filter>, d: Doc) {
    forall i | 0 <= i < |fs| :: Reached(fs, i) ==> Elastic(r, field, fs[i], d)
  }

  predicate FieldMongo(r: Readings, field: string, fs: seq<Filter>, d: Doc) {
    forall i | 0 <= i < |fs| :: Reached(fs, i) ==> Mongo(r, field, fs[i], d)
  }

  /** A query is the conjunction of all fields' filters, each field's up to its first filter without a value. */
  lemma {:induction false} QueryMeans(r: Readings, filters: FieldFilters, d: Doc)
    ensures E.Accepts(r, E.QueryOf(r, filters), PackDoc(d)) <==> AllElastic(r, filters, d)
    ensures M.Accepts(r, M.QueryOf(r, filters), d) <==> AllMongo(r, filters, d)
  {
    if filters != [] {
      var p, rest := filters[0], filters[1..];
      QueryMeans(r, rest, d);
      FieldMeaning(r, p.0, p.1, d);
      AcceptsPlus(r, E.FieldQuery(r, p.0, p.1), E.QueryOf(r, rest), PackDoc(d));
      AcceptsAnd(r, M.FieldClauses(r, p.0, p.1), M.QueryOf(r, rest), d);
      HeadAndRest(r, filters, d);
    }
  }

  lemma HeadAndRest(r: Readings, filters: FieldFilters, d: Doc)
    requires filters != []
    ensures AllElastic(r, filters, d) <==>
            FieldElastic(r, filters[0].0, filters[0].1, d) && AllElastic(r, filters[1..], d)
    ensures AllMongo(r, filters, d) <==> FieldMongo(r, filters[0].0, filters[0].1, d) && AllMongo(r, filters[1..], d)
  {
    assert forall k :: 1 <= k < |filters| ==> filters[k] == filters[1..][k - 1];
  }

  // ---- the filters as they are left ----

  /** A literal as the processor leaves it: a hundred times the number on an amount, untouched elsewhere. */
  function Left(r: Readings, field: string, text: string): Literal {
    if IsLong(field) then Scaled(r.number(text) * 100.0) else Raw(text)
  }

  /** Every reached filter keeps its condition and gets the array of all its values, scaled; the rest stay. */
  lemma {:induction false} RewrittenFilters(r: Readings, field: string, fs: seq<Filter>)
    ensures |E.ScaledFilters(r, field, fs)| == |fs|
    ensures forall i | 0 <= i < |fs| ::
              E.ScaledFilters(r, field, fs)[i] == if Reached(fs, i) then RewrittenFilter(r, field, fs[i]) else fs[i]
  {
    if fs == [] || fs[0].value.Falsy? {
      NoneReached(fs);
    } else {
      var rest := fs[1..];
      RewrittenFilters(r, field, rest);
      forall i | 0 <= i < |fs|
        ensures E.ScaledFilters(r, field, fs)[i] == if Reached(fs, i) then RewrittenFilter(r, field, fs[i]) else fs[i]
      {
        if i > 0 {
          ReachedNext(fs, i - 1);
          assert fs[i] == rest[i - 1];
        }
      }
    }
  }

  function RewrittenFilter(r: Readings, field: string, f: Filter): Filter {
    Filter(f.condition, Many(E.ScaleAll(r, field, Operands(f.value))))
  }

  lemma RewrittenValues(r: Readings, field: string, c: Condition, texts: seq<string>)
    ensures RewrittenFilter(r, field, Filter(c, Many(Values(texts)))) ==
            Filter(c, Many(seq(|texts|, i requires 0 <= i < |texts| => Plain(Left(r, field, texts[i])))))
    ensures texts != [] ==> RewrittenFilter(r, field, Filter(c, Single(Plain(Raw(texts[0]))))) ==
                            Filter(c, Many([Plain(Left(r, field, texts[0]))]))
  {
    assert E.ScaleAll(r, field, Values(texts)) ==
           seq(|texts|, i requires 0 <= i < |texts| => Plain(Left(r, field, texts[i])));
    if texts != [] {
      assert E.ScaleAll(r, field, [Plain(Raw(texts[0]))]) == [Plain(Left(r, field, texts[0]))];
    }
  }

  lemma RewrittenWindows(r: Readings, field: string, c: Condition, froms: seq<string>, tos: seq<string>)
    requires |froms| == |tos|
    ensures RewrittenFilter(r, field, Filter(c, Many(Windows(froms, tos)))) ==
            Filter(c, Many(seq(|froms|, i requires 0 <= i < |froms| =>
                                 Window(Left(r, field, froms[i]), Left(r, field, tos[i])))))
  {
    assert E.ScaleAll(r, field, Windows(froms, tos)) ==
           seq(|froms|, i requires 0 <= i < |froms| => Window(Left(r, field, froms[i]), Left(r, field, tos[i])));
  }
}
