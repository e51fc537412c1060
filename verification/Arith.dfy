/** The few facts about floors that the decimal proofs need. */
module Arith {
  lemma HornerStep(a: nat, p: nat, f: nat, d: nat)
    ensures 10 * (a * p + f) + d == a * (10 * p) + (10 * f + d)
  {
  }

  lemma FloorUnique(n: nat, d: nat, q: nat, r: nat)
    requires d > 0 && n == q * d + r && r < d
    ensures n / d == q
  {
    var diff := n / d - q;
    assert n == (n / d) * d + n % d;
    assert diff * d == (n / d) * d - q * d;
    assert diff * d == r - n % d;
    SmallMultiple(diff, d);
  }

  lemma SmallMultiple(k: int, d: nat)
    requires -(d as int) < k * d < d
    ensures k == 0
  {
  }

  lemma FloorShift(k: nat, n: nat, d: nat)
    requires d > 0
    ensures (k * d + n) / d == k + n / d
  {
    assert n == (n / d) * d + n % d;
    assert (k + n / d) * d == k * d + (n / d) * d;
    FloorUnique(k * d + n, d, k + n / d, n % d);
  }

  lemma FloorOfHundred(two: nat, rest: nat, p: nat)
    requires rest < p
    ensures 100 * (two * p + rest) / (100 * p) == two
  {
    assert 100 * (two * p + rest) == two * (100 * p) + 100 * rest;
    FloorUnique(100 * (two * p + rest), 100 * p, two, 100 * rest);
  }
}
