/** The exchange calculator: a per-request cache in front of the currency service. */
module Currency {
  import opened Wrappers

  datatype CurrencyModel = CurrencyModel(id: string, rate: real)

  /** What the currency service answers; constant while one calculator lives. */
  type Service = string -> Option<CurrencyModel>

  function UpperChar(c: char): char {
    if 'a' <= c <= 'z' then (c as int - 'a' as int + 'A' as int) as char else c
  }

  function Upper(s: string): string {
    seq(|s|, i requires 0 <= i < |s| => UpperChar(s[i]))
  }

  /** The state of a calculator: its cache, and the codes it asked the service for. */
  datatype State = State(cache: map<string, real>, fetched: seq<string>)

  const EMPTY := State(map[], [])

  /** A fetched rate is stored under the id the service returns, and read back under the requested code. */
  function After(service: Service, s: State, code: string): State {
    var key := Upper(code);
    if key in s.cache then s
    else
      var found := service(key);
      State(if found.Some? then s.cache[found.value.id := found.value.rate] else s.cache, s.fetched + [key])
  }

  function Answer(service: Service, s: State, code: string): Option<real> {
    var after := After(service, s, code);
    if Upper(code) in after.cache then Some(after.cache[Upper(code)]) else None
  }

  class ExchangeCalculator {
    const service: Service
    var ratesCache: map<string, real>
    var fetched: seq<string>

    constructor (service: Service)
      ensures this.service == service && Now() == EMPTY
    {
      this.service := service;
      ratesCache, fetched := map[], [];
    }

    function Now(): State
      reads this
    {
      State(ratesCache, fetched)
    }

    method GetCurrencyExchangeRate(currencyCode: string) returns (rate: Option<real>)
      modifies this
      ensures Now() == After(service, old(Now()), currencyCode)
      ensures rate == Answer(service, old(Now()), currencyCode)
      ensures Reliable(service, old(Now())) ==> Reliable(service, Now()) && rate == RateOf(service, currencyCode)
    {
      if Reliable(service, Now()) {
        LookupCoherent(service, Now(), currencyCode);
      }
      var code := Upper(currencyCode);
      if code !in ratesCache {
        var currency := service(code);
        fetched := fetched + [code];
        if currency.Some? {
          ratesCache := ratesCache[currency.value.id := currency.value.rate];
        }
      }
      rate := if code in ratesCache then Some(ratesCache[code]) else None;
    }
  }

  function RateOf(service: Service, code: string): Option<real> {
    var found := service(Upper(code));
    if found.Some? then Some(found.value.rate) else None
  }

  /** The service answers a code with the currency of that id. */
  ghost predicate Faithful(service: Service) {
    forall code :: service(Upper(code)).Some? ==> service(Upper(code)).value.id == Upper(code)
  }

  /** A calculator in front of a faithful service that has only been used for lookups. */
  ghost predicate Reliable(service: Service, s: State) {
    Faithful(service) && Coherent(service, s)
  }

  /** Every entry is the service's, and every known code was fetched at most once. */
  ghost predicate Coherent(service: Service, s: State) {
    && (forall code :: Upper(code) in s.cache ==> Some(s.cache[Upper(code)]) == RateOf(service, code))
    && (forall i :: 0 <= i < |s.fetched| && service(s.fetched[i]).Some? ==> s.fetched[i] in s.cache)
    && (forall i, j :: 0 <= i < j < |s.fetched| && service(s.fetched[i]).Some? ==> s.fetched[i] != s.fetched[j])
  }

  lemma UpperTwice(s: string)
    ensures Upper(Upper(s)) == Upper(s)
  {
  }

  /** The same letter, or the small and the capital one. */
  predicate SameLetter(x: char, y: char) {
    || x == y
    || ('a' <= x <= 'z' && y as int == x as int - 32)
    || ('a' <= y <= 'z' && x as int == y as int - 32)
  }

  predicate SameButCase(a: string, b: string) {
    |a| == |b| && forall i :: 0 <= i < |a| ==> SameLetter(a[i], b[i])
  }

  predicate InCapitals(s: string) {
    forall i :: 0 <= i < |s| ==> !('a' <= s[i] <= 'z')
  }

  /** Codes that differ in case only get the same answer, and the service is asked in capitals. */
  lemma CaseDoesNotMatter(service: Service, s: State, a: string, b: string)
    requires SameButCase(a, b)
    ensures Answer(service, s, a) == Answer(service, s, b) && After(service, s, a) == After(service, s, b)
    ensures exists code :: SameButCase(a, code) && InCapitals(code) && After(service, EMPTY, a).fetched == [code]
  {
    assert forall i :: 0 <= i < |a| ==> Upper(a)[i] == Upper(b)[i];
    assert Upper(a) == Upper(b);
    assert SameButCase(a, Upper(a)) && InCapitals(Upper(a));
    assert After(service, EMPTY, a).fetched == [Upper(a)];
  }

  /** The rate of a code is what the service answers to it in capitals. */
  lemma RateInCapitals(service: Service, code: string, capitals: string)
    requires SameButCase(code, capitals) && InCapitals(capitals)
    ensures RateOf(service, code) ==
            if service(capitals).Some? then Some(service(capitals).value.rate) else None
  {
    assert Upper(code) == capitals;
  }

  lemma LookupCoherent(service: Service, s: State, code: string)
    requires Faithful(service) && Coherent(service, s)
    ensures Coherent(service, After(service, s, code))
    ensures Answer(service, s, code) == RateOf(service, code)
  {
    var key, after := Upper(code), After(service, s, code);
    if key !in s.cache {
      UpperTwice(code);
      if service(key).Some? {
        assert service(Upper(code)).value.id == Upper(code);
        forall c | Upper(c) in after.cache ensures Some(after.cache[Upper(c)]) == RateOf(service, c) {
        }
      }
    }
  }

  function Lookups(service: Service, s: State, codes: seq<string>): State {
    if codes == [] then s
    else After(service, Lookups(service, s, codes[..|codes| - 1]), codes[|codes| - 1])
  }

  /**
    In every sequence of lookups, whatever the letter case, each answer is the service's rate or
    nothing when the code is unknown, and a known code is asked for once.
  */
  lemma {:induction false} RatesAreCoherent(service: Service, codes: seq<string>, code: string)
    requires Faithful(service)
    ensures Coherent(service, Lookups(service, EMPTY, codes))
    ensures Answer(service, Lookups(service, EMPTY, codes), code) == RateOf(service, code)
  {
    if codes != [] {
      var prefix := codes[..|codes| - 1];
      RatesAreCoherent(service, prefix, code);
      LookupCoherent(service, Lookups(service, EMPTY, prefix), codes[|codes| - 1]);
    }
    LookupCoherent(service, Lookups(service, EMPTY, codes), code);
  }

  /** Every answer after every sequence of lookups is the service's rate exactly when the service is faithful. */
  lemma AnswersExactly(service: Service)
    ensures (forall codes, code :: Answer(service, Lookups(service, EMPTY, codes), code) == RateOf(service, code))
            <==> Faithful(service)
  {
    if Faithful(service) {
      forall codes, code ensures Answer(service, Lookups(service, EMPTY, codes), code) == RateOf(service, code) {
        RatesAreCoherent(service, codes, code);
      }
    } else {
      var code :| service(Upper(code)).Some? && service(Upper(code)).value.id != Upper(code);
      FirstAnswerExactly(service, code);
      assert Lookups(service, EMPTY, []) == EMPTY;
      assert Answer(service, Lookups(service, EMPTY, []), code) != RateOf(service, code);
    }
  }

  /** A fresh calculator gives the rate of a known code exactly when the service returned that code as its id. */
  lemma FirstAnswerExactly(service: Service, code: string)
    requires service(Upper(code)).Some?
    ensures Answer(service, EMPTY, code).Some? <==> service(Upper(code)).value.id == Upper(code)
    ensures Answer(service, EMPTY, code).Some? ==> Answer(service, EMPTY, code) == RateOf(service, code)
  {
  }
}
