/** Rounding of decimals to a whole number of storage units, ties away from zero:
    PostgreSQL's rule for numeric(p,s) columns and MidpointRounding.AwayFromZero.
    A quantity is measured in storage units (0.0001 for stock, 0.01 for money), so
    "has at most s decimals" reads "is whole". */
module Decimals {

  function RoundAway(x: real): (n: int)
    ensures x >= 0.0 ==> n as real - 0.5 <= x < n as real + 0.5
    ensures x < 0.0 ==> n as real - 0.5 < x <= n as real + 0.5
  {
    if x >= 0.0 then (x + 0.5).Floor else -((0.5 - x).Floor)
  }

  predicate Whole(x: real) {
    x == x.Floor as real
  }

  lemma WholeIs(x: real, n: int)
    requires n as real <= x < n as real + 1.0
    ensures Whole(x) <==> x == n as real
  {
    var f := x.Floor;
    assert f as real <= x < f as real + 1.0;
    assert f == n;
  }

  /** The fifth decimal is an exact tie. */
  predicate Tied(x: real) {
    x == x.Floor as real + 0.5
  }

  lemma RoundsTo(x: real, n: int)
    requires x >= 0.0
    requires n as real - 0.5 <= x < n as real + 0.5
    ensures RoundAway(x) == n
  {
  }

  lemma TiedBelow(x: real)
    requires x >= 0.0
    ensures Tied(x) <==> x == RoundAway(x) as real - 0.5
  {
    var n := RoundAway(x);
    if x == n as real - 0.5 {
      assert x.Floor == n - 1;
    }
  }

  /** Rounding the difference and rounding the amount taken disagree exactly on a tie, by one unit. */
  lemma RoundedDebit(balance: int, amount: real)
    requires 0.0 <= amount <= balance as real
    ensures RoundAway(balance as real - amount) == balance - RoundAway(amount) + (if Tied(amount) then 1 else 0)
    ensures RoundAway(balance as real - amount) >= 0
  {
    var n := RoundAway(amount);
    TiedBelow(amount);
    RoundsTo(balance as real - amount, balance - n + (if Tied(amount) then 1 else 0));
  }

  lemma RoundedCredit(balance: nat, amount: real)
    requires 0.0 <= amount
    ensures RoundAway(balance as real + amount) == balance + RoundAway(amount)
  {
    RoundsTo(balance as real + amount, balance + RoundAway(amount));
  }
}
