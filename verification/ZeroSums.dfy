/** The only rated mode has two players, and there the zero-sum law holds: with integer ratings and the
    true 10^x, the unrounded change never lies half way between two integers. */
module ZeroSums {
  import opened Basics
  import opened Elos
  import opened Ledger

  predicate Adds(pow: real -> real, x: real, y: real) {
    pow(x + y) == pow(x) * pow(y)
  }

  /** What 10^x satisfies and the argument uses. */
  ghost predicate IsTenPower(pow: real -> real) {
    IsPower(pow) && pow(1.0) == 10.0 && forall x, y :: Adds(pow, x, y)
  }

  // ---------------------------------------------------------------- powers

  function Power(x: real, n: nat): real {
    if n == 0 then 1.0 else Power(x, n - 1) * x
  }

  function IntPower(a: nat, n: nat): nat {
    if n == 0 then 1 else IntPower(a, n - 1) * a
  }

  lemma {:induction false} PowerOfInt(a: nat, n: nat)
    ensures Power(a as real, n) == IntPower(a, n) as real
  {
    if n > 0 {
      PowerOfInt(a, n - 1);
      assert (IntPower(a, n - 1) * a) as real == IntPower(a, n - 1) as real * a as real;
    }
  }

  lemma {:induction false} PowerOfProduct(x: real, y: real, n: nat)
    ensures Power(x * y, n) == Power(x, n) * Power(y, n)
  {
    if n > 0 {
      PowerOfProduct(x, y, n - 1);
      Swap(Power(x, n - 1), Power(y, n - 1), x, y);
    }
  }

  lemma Swap(a: real, b: real, x: real, y: real)
    ensures (a * b) * (x * y) == (a * x) * (b * y)
  {
  }

  lemma Odd(a: nat, b: nat)
    requires a % 2 == 1 && b % 2 == 1
    ensures (a * b) % 2 == 1
  {
    var i, j := a / 2, b / 2;
    assert a * b == 2 * (2 * i * j + i + j) + 1;
  }

  lemma Even(a: nat, b: nat, c: nat)
    requires a % 2 == 0 && c == a * b
    ensures c % 2 == 0
  {
    var i := a / 2;
    assert c == 2 * (i * b);
  }

  lemma {:induction false} OddPower(a: nat, n: nat)
    requires a % 2 == 1
    ensures IntPower(a, n) % 2 == 1
  {
    if n > 0 {
      OddPower(a, n - 1);
      Odd(IntPower(a, n - 1), a);
    }
  }

  lemma EvenPower(a: nat, n: nat)
    requires a % 2 == 0 && n > 0
    ensures IntPower(a, n) % 2 == 0
  {
    Even(a, IntPower(a, n - 1), IntPower(a, n));
  }

  lemma {:induction false} PowerOfMultiple(pow: real -> real, x: real, n: nat, y: real)
    requires IsTenPower(pow) && y == n as real * x
    ensures pow(y) == Power(pow(x), n)
  {
    if n == 0 {
      EvenOdds(pow);
      assert y == 0.0;
    } else {
      PowerOfMultiple(pow, x, n - 1, y - x);
      assert Adds(pow, y - x, x) && (y - x) + x == y;
    }
  }

  lemma PowerOfNat(pow: real -> real, d: nat)
    requires IsTenPower(pow)
    ensures pow(d as real) == IntPower(10, d) as real
  {
    PowerOfMultiple(pow, 1.0, d, d as real);
    PowerOfInt(10, d);
  }

  // ---------------------------------------------------------------- no quotient of odd numbers

  /** r / q times a power of ten is no odd quotient: r^n = q^n 10^d has odd and even sides. */
  lemma NoOddRoot(q: nat, r: nat, n: nat, d: nat)
    requires q % 2 == 1 && r % 2 == 1 && d > 0
    ensures IntPower(r, n) != IntPower(10, d) * IntPower(q, n)
  {
    OddPower(q, n);
    OddPower(r, n);
    EvenPower(10, d);
    NotEvenProduct(IntPower(10, d), IntPower(q, n), IntPower(r, n));
  }

  lemma NotEvenProduct(a: nat, b: nat, c: nat)
    requires a % 2 == 0 && c % 2 == 1
    ensures c != a * b
  {
    if c == a * b {
      Even(a, b, c);
    }
  }

  lemma NthPowers(q: nat, r: nat, e: real, n: nat)
    requires q as real * e == r as real
    ensures IntPower(q, n) as real * Power(e, n) == IntPower(r, n) as real
  {
    PowerOfProduct(q as real, e, n);
    PowerOfInt(q, n);
    PowerOfInt(r, n);
  }

  lemma AsInts(a: nat, b: nat, c: nat)
    requires a as real * b as real == c as real
    ensures b * a == c
  {
    assert (a * b) as real == c as real;
  }

  /** For ratings d > 0 apart, 10^(d/n) is no quotient of odd numbers. */
  lemma NotOddAbove(pow: real -> real, d: nat, n: nat, x: real, q: nat, r: nat)
    requires IsTenPower(pow) && d > 0 && n as real * x == d as real
    requires q % 2 == 1 && r % 2 == 1
    ensures q as real * pow(x) != r as real
  {
    if q as real * pow(x) == r as real {
      NthPowers(q, r, pow(x), n);
      PowerOfMultiple(pow, x, n, d as real);
      PowerOfNat(pow, d);
      AsInts(IntPower(q, n), IntPower(10, d), IntPower(r, n));
      NoOddRoot(q, r, n, d);
    }
  }

  lemma Inverted(a: real, b: real, e: real, f: real)
    requires a * e == b && e * f == 1.0
    ensures b * f == a
  {
    assert b * f == a * (e * f);
  }

  /** Nor for ratings any other way apart, if the two numbers add up to 64. */
  lemma NotOdd(pow: real -> real, d: int, n: nat, x: real, q: nat, r: nat)
    requires IsTenPower(pow) && n > 0 && n as real * x == d as real
    requires q % 2 == 1 && q + r == 64
    ensures q as real * pow(x) != r as real
  {
    if d > 0 {
      NotOddAbove(pow, d, n, x, q, r);
    } else if d < 0 {
      assert Reciprocal(pow, x);
      if q as real * pow(x) == r as real {
        Inverted(q as real, r as real, pow(x), pow(-x));
        NotOddAbove(pow, -d, n, -x, r, q);
      }
    } else {
      assert x == 0.0;
      EvenOdds(pow);
    }
  }

  // ---------------------------------------------------------------- the change is never a half

  /** 64 odds that would be the odd number q. */
  lemma OddsAsQuotient(e: real, odds: real, q: int)
    requires e > 0.0 && odds == 1.0 / (1.0 + e) && 64.0 * odds == q as real
    ensures 0 < q < 64 && q as real * e == (64 - q) as real
  {
    assert odds * (1.0 + e) == 1.0;
    assert odds > 0.0 && odds * e > 0.0;
    assert q as real * e == 64.0 * (odds * e);
  }

  /** A change of half a point would make 64 times the odds an odd number. */
  lemma HalfIsOdd(score: int, odds: real) returns (q: int)
    requires IsHalf(K_TWO_PLAYERS * (score as real - odds))
    ensures 64.0 * odds == q as real && q % 2 == 1
  {
    var up := (K_TWO_PLAYERS * (score as real - odds) + 0.5).Floor;
    assert up as real == 32.0 * score as real - 32.0 * odds + 0.5;
    q := 2 * (32 * score - up) + 1;
  }

  lemma NeverHalf(pow: real -> real, d: int, n: nat, x: real, score: int)
    requires IsTenPower(pow) && n > 0 && n as real * x == d as real
    ensures !IsHalf(K_TWO_PLAYERS * (score as real - Odds(pow, x)))
  {
    if IsHalf(K_TWO_PLAYERS * (score as real - Odds(pow, x))) {
      var q := HalfIsOdd(score, Odds(pow, x));
      NotOddOdds(pow, d, n, x, q);
    }
  }

  lemma NotOddOdds(pow: real -> real, d: int, n: nat, x: real, q: int)
    requires IsTenPower(pow) && n > 0 && n as real * x == d as real && q % 2 == 1
    ensures 64.0 * Odds(pow, x) != q as real
  {
    assert Reciprocal(pow, x);
    if ELO_DIFF_LOWER <= x <= ELO_DIFF_UPPER && 64.0 * Odds(pow, x) == q as real {
      OddsAsQuotient(pow(x), Odds(pow, x), q);
      NotOdd(pow, d, n, x, q, 64 - q);
    }
  }

  lemma FirstChange(pow: real -> real, elos: seq<int>, placement: seq<int>, deltas: seq<real>)
    requires IsPower(pow) && |elos| == |placement| == 2
    requires AreChanges(Expected(pow, elos), K_TWO_PLAYERS, placement, deltas)
    ensures deltas[0] == K_TWO_PLAYERS * (placement[0] as real - Odds(pow, (elos[1] - elos[0]) as real / 400.0))
  {
    var w := Expected(pow, elos);
    assert Against(w, 0, 1) == 0.0;
    assert Against(w, 0, 2) == w(0, 1);
    assert IsChange(1.0, K_TWO_PLAYERS, placement[0] as real, Against(w, 0, 2), deltas[0]);
  }

  lemma FirstIsNoHalf(pow: real -> real, elos: seq<int>, placement: seq<int>, deltas: seq<real>)
    requires IsTenPower(pow) && |elos| == |placement| == 2
    requires AreChanges(Expected(pow, elos), K_TWO_PLAYERS, placement, deltas)
    ensures !IsHalf(deltas[0])
  {
    FirstChange(pow, elos, placement, deltas);
    var d := elos[1] - elos[0];
    NeverHalf(pow, d, 400, d as real / 400.0, placement[0]);
  }

  /** Every two-player update is zero sum unless the floor applies. */
  lemma RatedPairIsZeroSum(pow: real -> real, elos: seq<int>, placement: seq<int>, deltas: seq<real>)
    requires IsTenPower(pow) && |elos| == |placement| == 2 && IsPermutation(placement)
    requires AreChanges(Expected(pow, elos), K_TWO_PLAYERS, placement, deltas)
    requires elos[0] >= ELO_FLOOR && elos[1] >= ELO_FLOOR && NoFloor(elos, deltas)
    ensures Sum(NewRatings(elos, deltas)) == Sum(elos)
  {
    FirstIsNoHalf(pow, elos, placement, deltas);
    ExpectedIsScoring(pow, elos);
    TwoPlayersZeroSumIff(Expected(pow, elos), elos, placement, deltas);
  }
}
