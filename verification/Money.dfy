/**
  Money arithmetic of the ledger.  Amounts are exact reals; the rounding is the one the
  transaction virtuals use, Math.round((x + Number.EPSILON) * 100) / 100.
*/
module Money {

  const EPSILON: real := 1.0 / 4503599627370496.0

  /** Number of cents x is rounded to. */
  function RoundToCents(x: real): int {
    ((x + EPSILON) * 100.0 + 0.5).Floor
  }

  function Cents(k: int): real {
    k as real / 100.0
  }

  function RoundMoney(x: real): real {
    Cents(RoundToCents(x))
  }

  predicate WholeCents(x: real) {
    x == Cents((x * 100.0).Floor)
  }

  /** Math.trunc: toward zero, for both signs. */
  function Trunc(x: real): int {
    if x >= 0.0 then x.Floor else -((-x).Floor)
  }

  lemma RoundingError(x: real)
    ensures x + EPSILON - 0.005 < RoundMoney(x) <= x + EPSILON + 0.005
    ensures 0.0 < EPSILON < 0.00001
  {
    var y := (x + EPSILON) * 100.0 + 0.5;
    assert y - 1.0 < y.Floor as real <= y;
  }

  lemma RoundingMonotone(x: real, y: real)
    requires x <= y
    ensures RoundToCents(x) <= RoundToCents(y)
    ensures RoundMoney(x) <= RoundMoney(y)
  {
    var a, b := (x + EPSILON) * 100.0 + 0.5, (y + EPSILON) * 100.0 + 0.5;
    assert a <= b;
  }

  /** Rounding commutes with adding whole cents: this is what keeps rounding errors from piling up. */
  lemma RoundingShift(x: real, k: int)
    ensures RoundToCents(x + Cents(k)) == RoundToCents(x) + k
  {
    var y := (x + EPSILON) * 100.0 + 0.5;
    assert (x + Cents(k) + EPSILON) * 100.0 + 0.5 == y + k as real;
    assert (y + k as real).Floor == y.Floor + k;
  }

  lemma RoundingWhole(k: int)
    ensures RoundToCents(Cents(k)) == k
    ensures RoundMoney(Cents(k)) == Cents(k)
    ensures WholeCents(Cents(k))
  {
    assert Cents(k) * 100.0 == k as real;
    var y := (Cents(k) + EPSILON) * 100.0 + 0.5;
    assert y == k as real + (EPSILON * 100.0 + 0.5);
    assert k as real < y < k as real + 1.0;
    assert y.Floor == k;
  }

  lemma WholePlusWhole(a: real, b: real)
    requires WholeCents(a) && WholeCents(b)
    ensures WholeCents(a + b)
  {
    var k, l := (a * 100.0).Floor, (b * 100.0).Floor;
    RoundingWhole(k + l);
    assert a + b == Cents(k + l);
  }

  lemma TruncationError(x: real)
    ensures x >= 0.0 ==> Cents(Trunc(x * 100.0)) <= x < Cents(Trunc(x * 100.0)) + 0.01
    ensures x <= 0.0 ==> Cents(Trunc(x * 100.0)) - 0.01 < x <= Cents(Trunc(x * 100.0))
    ensures WholeCents(x) <==> Cents(Trunc(x * 100.0)) == x
  {
    var y := x * 100.0;
    if x >= 0.0 {
      assert y.Floor as real <= y < y.Floor as real + 1.0;
    } else {
      assert (-y).Floor as real <= -y < (-y).Floor as real + 1.0;
      if WholeCents(x) {
        assert y == y.Floor as real;
        assert (-y).Floor == -(y.Floor);
      }
      if Cents(Trunc(y)) == x {
        assert y == (-((-y).Floor)) as real;
        assert y.Floor == -((-y).Floor);
      }
    }
  }
}
