/**
  The filter language of the transaction lists, the documents it is asked about, and what a range
  means on them.  Both search engines are given their meaning on these.
*/
module Filters {
  import opened Money

  datatype Value = Num(n: real) | When(ms: int) | Text(s: string)

  /** A document as its searchable fields; a missing field is not in the map. */
  type Doc = map<string, Value>

  /** An operand as the client sent it, or as the double value processor left it. */
  datatype Literal = Raw(text: string) | Scaled(n: real)

  datatype Operand = Plain(lit: Literal) | Window(from: Literal, to: Literal)

  datatype FilterValue = Falsy | Single(operand: Operand) | Many(operands: seq<Operand>)

  datatype Condition =
    | AfterDate | BeforeDate | BetweenDates | IsDate | IsNotDate
    | Between | Contains | DoesNotContain | EndsWith | StartsWith
    | GreaterThan | GreaterThanOrEqual | LessThan | LessThanOrEqual
    | Is | IsNot | IsIn | IsNotIn
    | UnknownCondition(name: string)

  datatype Filter = Filter(condition: Condition, value: FilterValue)

  type FieldFilters = seq<(string, seq<Filter>)>

  datatype Pattern = AnyTerm | Phrase | Anywhere | AtStart | AtEnd

  /**
    How literals are read and how text is matched.  Number, parseInt, the start of a day and the text
    matcher are whatever they are, but the same for both engines.
  */
  datatype Readings = Readings(
    number: string -> real,
    whole: string -> int,
    dayStart: string -> int,
    nextDayStart: string -> int,
    matches: (Pattern, string, string) -> bool)

  function NumberOf(r: Readings, lit: Literal): real {
    match lit
    case Raw(text) => r.number(text)
    case Scaled(n) => n
  }

  /** parseInt of a text as it was sent, or of a number, of which it keeps the whole part. */
  function WholeOf(r: Readings, lit: Literal): real {
    match lit
    case Raw(text) => r.whole(text) as real
    case Scaled(n) => Trunc(n) as real
  }

  function TextOf(lit: Literal): string {
    if lit.Raw? then lit.text else ""
  }

  function Start(o: Operand): Literal {
    if o.Window? then o.from else o.lit
  }

  function End(o: Operand): Literal {
    if o.Window? then o.to else o.lit
  }

  function Operands(v: FilterValue): seq<Operand> {
    match v
    case Falsy => []
    case Single(o) => [o]
    case Many(os) => os
  }

  function LiteralsOf(os: seq<Operand>): seq<Literal> {
    seq(|os|, i requires 0 <= i < |os| => Start(os[i]))
  }

  const LONG_FIELDS: set<string> := {
    "amount", "delivery_fee", "down_payment", "payment_fee", "total",
    "items.fixed_shipping_price", "items.price", "items.price_net", "items.shipping_price",
    "items.shipping_settings_rate", "items.vat_rate", "items.weight"
  }

  predicate IsLong(field: string) {
    field in LONG_FIELDS
  }

  function PackValue(field: string, v: Value): Value {
    if IsLong(field) && v.Num? then Num(Trunc(v.n * 100.0) as real) else v
  }

  /** The indexed form of a document: amounts on long fields are whole cents. */
  function PackDoc(d: Doc): Doc {
    map f | f in d :: PackValue(f, d[f])
  }

  // ---- bounds and ranges ----

  datatype Extended = NegInfinity | Finite(r: real) | PosInfinity

  function MaxOf(xs: seq<real>): Extended {
    if xs == [] then NegInfinity
    else
      var rest := MaxOf(xs[1..]);
      if rest.Finite? && rest.r >= xs[0] then rest else Finite(xs[0])
  }

  function MinOf(xs: seq<real>): Extended {
    if xs == [] then PosInfinity
    else
      var rest := MinOf(xs[1..]);
      if rest.Finite? && rest.r <= xs[0] then rest else Finite(xs[0])
  }

  datatype Limit = Unbounded | Inclusive(bound: Extended) | Exclusive(bound: Extended)

  predicate Above(x: real, lower: Limit) {
    match lower
    case Unbounded => true
    case Inclusive(b) => b.NegInfinity? || (b.Finite? && x >= b.r)
    case Exclusive(b) => b.NegInfinity? || (b.Finite? && x > b.r)
  }

  predicate Below(x: real, upper: Limit) {
    match upper
    case Unbounded => true
    case Inclusive(b) => b.PosInfinity? || (b.Finite? && x <= b.r)
    case Exclusive(b) => b.PosInfinity? || (b.Finite? && x < b.r)
  }

  datatype RangeKind = NumberRange | DateRange

  /** A range holds of a present value of its own kind. */
  predicate RangeHolds(d: Doc, field: string, kind: RangeKind, lower: Limit, upper: Limit) {
    && field in d
    && match d[field]
      case Num(n) => kind == NumberRange && Above(n, lower) && Below(n, upper)
      case When(ms) => kind == DateRange && Above(ms as real, lower) && Below(ms as real, upper)
      case Text(_) => false
  }

  /** Equality of a number, or a phrase match of a text. */
  predicate EqualHolds(r: Readings, d: Doc, field: string, lit: Literal) {
    && field in d
    && match d[field]
      case Num(n) => n == NumberOf(r, lit)
      case Text(s) => r.matches(Phrase, s, TextOf(lit))
      case When(_) => false
  }

  /** Equality of a number, or any term of the value in a text. */
  predicate MatchHolds(r: Readings, d: Doc, field: string, lit: Literal) {
    && field in d
    && match d[field]
      case Num(n) => n == NumberOf(r, lit)
      case Text(s) => r.matches(AnyTerm, s, TextOf(lit))
      case When(_) => false
  }

  predicate PatternHolds(r: Readings, d: Doc, field: string, pattern: Pattern, lit: Literal) {
    field in d && d[field].Text? && r.matches(pattern, d[field].s, TextOf(lit))
  }

  /** Being above the maximum is being above every one of the values; nothing is required of none. */
  lemma {:induction false} AboveMax(x: real, xs: seq<real>)
    ensures Above(x, Inclusive(MaxOf(xs))) <==> forall i :: 0 <= i < |xs| ==> x >= xs[i]
    ensures Above(x, Exclusive(MaxOf(xs))) <==> forall i :: 0 <= i < |xs| ==> x > xs[i]
    ensures !MaxOf(xs).PosInfinity?
  {
    if xs != [] {
      AboveMax(x, xs[1..]);
      assert forall i :: 1 <= i < |xs| ==> xs[i] == xs[1..][i - 1];
      MaxBounds(xs);
    }
  }

  lemma {:induction false} MaxBounds(xs: seq<real>)
    requires xs != []
    ensures MaxOf(xs).Finite?
    ensures exists i :: 0 <= i < |xs| && xs[i] == MaxOf(xs).r
    ensures forall i :: 0 <= i < |xs| ==> xs[i] <= MaxOf(xs).r
  {
    if |xs| == 1 {
      assert xs[1..] == [];
    } else {
      MaxBounds(xs[1..]);
      assert forall i :: 1 <= i < |xs| ==> xs[i] == xs[1..][i - 1];
      var j :| 0 <= j < |xs[1..]| && xs[1..][j] == MaxOf(xs[1..]).r;
      assert xs[j + 1] == MaxOf(xs[1..]).r;
    }
  }

  /** The maximum and minimum of values that are there. */
  function Largest(xs: seq<real>): (m: real)
    requires xs != []
    ensures MaxOf(xs) == Finite(m) && m in xs
  {
    MaxBounds(xs);
    MaxOf(xs).r
  }

  function Smallest(xs: seq<real>): (m: real)
    requires xs != []
    ensures MinOf(xs) == Finite(m) && m in xs
  {
    MinBounds(xs);
    MinOf(xs).r
  }

  lemma {:induction false} BelowMin(x: real, xs: seq<real>)
    ensures Below(x, Inclusive(MinOf(xs))) <==> forall i :: 0 <= i < |xs| ==> x <= xs[i]
    ensures Below(x, Exclusive(MinOf(xs))) <==> forall i :: 0 <= i < |xs| ==> x < xs[i]
    ensures !MinOf(xs).NegInfinity?
  {
    if xs != [] {
      BelowMin(x, xs[1..]);
      assert forall i :: 1 <= i < |xs| ==> xs[i] == xs[1..][i - 1];
      MinBounds(xs);
    }
  }

  lemma {:induction false} MinBounds(xs: seq<real>)
    requires xs != []
    ensures MinOf(xs).Finite?
    ensures exists i :: 0 <= i < |xs| && xs[i] == MinOf(xs).r
    ensures forall i :: 0 <= i < |xs| ==> MinOf(xs).r <= xs[i]
  {
    if |xs| == 1 {
      assert xs[1..] == [];
    } else {
      MinBounds(xs[1..]);
      assert forall i :: 1 <= i < |xs| ==> xs[i] == xs[1..][i - 1];
      var j :| 0 <= j < |xs[1..]| && xs[1..][j] == MinOf(xs[1..]).r;
      assert xs[j + 1] == MinOf(xs[1..]).r;
    }
  }
}
