/** Two-decimal rounding of currency amounts, `Number(x.toFixed(2))`, on exact reals. */
module Money {

  /** Rounds to the nearest integer, halves away from zero (as `toFixed` rounds a decimal). */
  function RoundHalfAway(x: real): (n: int)
    ensures -0.5 <= n as real - x <= 0.5
  {
    if x >= 0.0 then (x + 0.5).Floor else -((-x + 0.5).Floor)
  }

  /** A whole number of cents. */
  predicate IsCents(x: real) {
    (x * 100.0).Floor as real == x * 100.0
  }

  /** `Number(x.toFixed(2))`. */
  function Round2(x: real): (r: real)
    ensures IsCents(r)
    ensures -0.005 <= r - x <= 0.005
  {
    var n := RoundHalfAway(x * 100.0);
    assert (n as real / 100.0) * 100.0 == n as real;
    n as real / 100.0
  }

  /** A whole-cent amount is left as it is. */
  lemma Round2OfCents(x: real)
    requires IsCents(x)
    ensures Round2(x) == x
  {
    var k := (x * 100.0).Floor;
    assert (k as real + 0.5).Floor == k;
    assert (-(k as real) + 0.5).Floor == -k;
  }

  /** Sums and differences of whole-cent amounts are whole-cent amounts. */
  lemma CentsAdd(a: real, b: real)
    requires IsCents(a) && IsCents(b)
    ensures IsCents(a + b) && IsCents(a - b)
  {
    var ka := (a * 100.0).Floor;
    var kb := (b * 100.0).Floor;
    assert a * 100.0 == ka as real && b * 100.0 == kb as real;
    assert (a + b) * 100.0 == a * 100.0 + b * 100.0;
    assert (a - b) * 100.0 == a * 100.0 - b * 100.0;
    assert ((ka + kb) as real).Floor == ka + kb;
    assert ((ka - kb) as real).Floor == ka - kb;
  }

  /** A balance after `balance = Number((balance + amount).toFixed(2))`. */
  function Adjust(balance: real, amount: real): real {
    Round2(balance + amount)
  }

  /** On whole-cent amounts the adjustment is exact: nothing is lost to rounding. */
  lemma AdjustExact(balance: real, amount: real)
    requires IsCents(balance) && IsCents(amount)
    ensures Adjust(balance, amount) == balance + amount
  {
    CentsAdd(balance, amount);
    Round2OfCents(balance + amount);
  }

  /** Two whole-cent adjustments are one adjustment by their sum. */
  lemma AdjustCompose(balance: real, a: real, b: real)
    requires IsCents(balance) && IsCents(a) && IsCents(b)
    ensures Adjust(Adjust(balance, a), b) == Adjust(balance, a + b) == balance + a + b
  {
    AdjustExact(balance, a);
    CentsAdd(balance, a);
    AdjustExact(balance + a, b);
    CentsAdd(a, b);
    AdjustExact(balance, a + b);
  }

  /**
   * A positive whole-cent amount raises the balance and a negative one lowers
   * it, with no floor: the balance can go below zero.
   */
  lemma AdjustDirection(balance: real, amount: real)
    requires IsCents(balance) && IsCents(amount)
    ensures amount > 0.0 ==> Adjust(balance, amount) > balance
    ensures amount < 0.0 ==> Adjust(balance, amount) < balance
    ensures balance < -amount ==> Adjust(balance, amount) < 0.0
  {
    AdjustExact(balance, amount);
  }

  /** Whatever the amounts, a balance stays within half a cent of the exact sum and is a whole number of cents. */
  lemma AdjustBounded(balance: real, amount: real)
    ensures IsCents(Adjust(balance, amount))
    ensures -0.005 <= Adjust(balance, amount) - (balance + amount) <= 0.005
  {
  }
}
