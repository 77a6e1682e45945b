/** Which way ratings move: the higher rated of two players is expected to score more, so the lower rated
    one gains more by the same placement, and a win against the odds pays more than one with them. */
module Upsets {
  import opened Elos
  import opened ZeroSums

  // ---------------------------------------------------------------- powers grow

  lemma {:induction false} SmallPower(e: real, n: nat)
    requires 0.0 < e <= 1.0
    ensures 0.0 < Power(e, n) <= 1.0
  {
    if n > 0 {
      SmallPower(e, n - 1);
      SmallProduct(Power(e, n - 1), e);
    }
  }

  lemma SmallProduct(x: real, y: real)
    requires 0.0 < x <= 1.0 && 0.0 < y <= 1.0
    ensures 0.0 < x * y <= 1.0
  {
    Positive(x, y);
    NonNegative(x, 1.0 - y);
    Spread(x, 1.0, y);
  }

  lemma {:induction false} TenPowerGrows(d: nat)
    ensures IntPower(10, d) >= (if d > 0 then 10 else 1)
  {
    if d > 0 {
      TenPowerGrows(d - 1);
    }
  }

  /** 10^(d/400) is above one for d > 0. */
  lemma AboveOne(pow: real -> real, d: nat, x: real)
    requires IsTenPower(pow) && d > 0 && 400.0 * x == d as real
    ensures pow(x) > 1.0
  {
    assert Reciprocal(pow, x);
    if pow(x) <= 1.0 {
      PowerOfMultiple(pow, x, 400, d as real);
      PowerOfNat(pow, d);
      TenPowerGrows(d);
      SmallPower(pow(x), 400);
    }
  }

  lemma Times(x: real, y: real)
    requires x > 0.0 && y > 1.0
    ensures x * y > x
  {
    Positive(x, y - 1.0);
    Spread(x, y, 1.0);
  }

  lemma PowerRises(pow: real -> real, d: int, d': int, x: real, x': real)
    requires IsTenPower(pow) && d < d' && 400.0 * x == d as real && 400.0 * x' == d' as real
    ensures 0.0 < pow(x) < pow(x')
  {
    assert Reciprocal(pow, x) && Adds(pow, x, x' - x) && x + (x' - x) == x';
    AboveOne(pow, d' - d, x' - x);
    Times(pow(x), pow(x' - x));
  }

  // ---------------------------------------------------------------- expected scores

  lemma PositiveFactor(m: real, x: real)
    requires m > 0.0 && m * x > 0.0
    ensures x > 0.0
  {
    if x <= 0.0 {
      NonNegative(m, 0.0 - x);
      Spread(m, 0.0, x);
    }
  }

  lemma InverseFalls(a: real, b: real)
    requires 0.0 < a < b
    ensures 0.0 < 1.0 / b < 1.0 / a
  {
    var x, y := 1.0 / a, 1.0 / b;
    assert a * x == 1.0 && b * y == 1.0;
    Reciprocals(a, b, x, y);
  }

  lemma Reciprocals(a: real, b: real, x: real, y: real)
    requires 0.0 < a < b && a * x == 1.0 && b * y == 1.0
    ensures 0.0 < y < x
  {
    PositiveFactor(b, y);
    Positive(b - a, y);
    assert a * (x - y) == (b - a) * y;
    PositiveFactor(a, x - y);
  }

  /** The expected score against an opponent rated d points higher. */
  ghost function Score(pow: real -> real, d: int): real
    requires IsPower(pow)
  {
    Odds(pow, d as real / 400.0)
  }

  lemma ScoreCases(pow: real -> real, d: int)
    requires IsTenPower(pow)
    ensures d > 2800 ==> Score(pow, d) == 0.0
    ensures d < -2800 ==> Score(pow, d) == 1.0
    ensures -2800 <= d <= 2800 ==>
              pow(d as real / 400.0) > 0.0 && Score(pow, d) == 1.0 / (1.0 + pow(d as real / 400.0))
  {
    assert Reciprocal(pow, d as real / 400.0);
  }

  /** The score never rises with the opponent's rating, and stays only beyond 2800 points either way. */
  lemma ScoreFalls(pow: real -> real, d: int, d': int)
    requires IsTenPower(pow) && d < d'
    ensures 0.0 <= Score(pow, d') <= Score(pow, d) <= 1.0
    ensures Score(pow, d') == Score(pow, d) <==> d > 2800 || d' < -2800
  {
    var x, x' := d as real / 400.0, d' as real / 400.0;
    ScoreCases(pow, d);
    ScoreCases(pow, d');
    OddsCancel(pow, x);
    OddsCancel(pow, x');
    if -2800 <= d && d' <= 2800 {
      PowerRises(pow, d, d', x, x');
      InverseFalls(1.0 + pow(x), 1.0 + pow(x'));
    } else if -2800 <= d <= 2800 {
      InverseFalls(1.0, 1.0 + pow(x));
    } else if -2800 <= d' <= 2800 {
      InverseFalls(1.0, 1.0 + pow(x'));
    }
  }

  /** A player is expected to score more than one half exactly against a lower rated one, and equally rated
      players one half each. */
  lemma FavouriteIff(pow: real -> real, d: int)
    requires IsTenPower(pow)
    ensures Score(pow, 0) == 0.5
    ensures Score(pow, d) > 0.5 <==> d < 0
    ensures Score(pow, d) < 0.5 <==> d > 0
  {
    EvenOdds(pow);
    if d > 0 {
      ScoreFalls(pow, 0, d);
    } else if d < 0 {
      ScoreFalls(pow, d, 0);
    }
  }

  // ---------------------------------------------------------------- changes

  lemma TableIsScore(pow: real -> real, elos: seq<int>, i: nat, j: nat)
    requires IsPower(pow) && i < |elos| && j < |elos|
    ensures Expected(pow, elos)(i, j) == Score(pow, elos[j] - elos[i])
  {
  }

  lemma ScoreOrFalls(pow: real -> real, d: int, d': int)
    requires IsTenPower(pow) && d <= d'
    ensures Score(pow, d') <= Score(pow, d)
  {
    if d < d' {
      ScoreFalls(pow, d, d');
    }
  }

  /** Against anybody else the lower rated of two players is expected to score no more. */
  lemma LowerRow(pow: real -> real, elos: seq<int>, i: nat, j: nat, x: nat)
    requires IsTenPower(pow) && i < |elos| && j < |elos| && x < |elos| && elos[i] <= elos[j]
    ensures Expected(pow, elos)(i, x) <= Expected(pow, elos)(j, x)
    ensures Expected(pow, elos)(i, j) <= Expected(pow, elos)(j, i)
  {
    TableIsScore(pow, elos, i, x);
    TableIsScore(pow, elos, j, x);
    ScoreOrFalls(pow, elos[x] - elos[j], elos[x] - elos[i]);
    TableIsScore(pow, elos, i, j);
    TableIsScore(pow, elos, j, i);
    ScoreOrFalls(pow, elos[i] - elos[j], elos[j] - elos[i]);
  }

  lemma {:induction false} LowerRows(w: Table, i: nat, j: nat, n: nat)
    requires i != j && w(i, j) <= w(j, i) && forall x: nat :: x < n && x != i && x != j ==> w(i, x) <= w(j, x)
    ensures Against(w, i, n) - (if j < n then w(i, j) else 0.0) <= Against(w, j, n) - (if i < n then w(j, i) else 0.0)
  {
    if n > 0 {
      LowerRows(w, i, j, n - 1);
    }
  }

  /** The lower rated of two players is expected to score no more in all. */
  lemma LowerExpectsLess(pow: real -> real, elos: seq<int>, i: nat, j: nat)
    requires IsTenPower(pow) && i < |elos| && j < |elos| && elos[i] <= elos[j]
    ensures Against(Expected(pow, elos), i, |elos|) <= Against(Expected(pow, elos), j, |elos|)
  {
    if i != j {
      forall x: nat | x < |elos|
        ensures Expected(pow, elos)(i, x) <= Expected(pow, elos)(j, x)
        ensures Expected(pow, elos)(i, j) <= Expected(pow, elos)(j, i)
      {
        LowerRow(pow, elos, i, j, x);
      }
      LowerRow(pow, elos, i, j, i);
      LowerRows(Expected(pow, elos), i, j, |elos|);
    }
  }

  lemma MoreForMore(m: real, k: real, x: real, y: real, d: real, d': real)
    requires m > 0.0 && k > 0.0 && x >= y && m * d == k * x && m * d' == k * y
    ensures d >= d' && (x > y ==> d > d')
  {
    Spread(m, d, d');
    Spread(k, x, y);
    NonNegative(k, x - y);
    SignOfFactor(m, d - d');
    if x > y {
      Positive(k, x - y);
      PositiveFactor(m, d - d');
    }
  }

  /** A better placement with no higher expectation, or an equal one, gains at least as much. */
  lemma MoreForLess(m: real, k: real, p: real, p': real, a: real, a': real, d: real, d': real)
    requires m > 0.0 && k > 0.0 && p >= p' && a <= a' && IsChange(m, k, p, a, d) && IsChange(m, k, p', a', d')
    ensures d >= d' && (p > p' ==> d > d')
  {
    MoreForMore(m, k, p - a, p' - a', d, d');
  }

  /** For one and the same placement the lower rated of two players gains at least as much. */
  lemma LowerRatedGainsMore(pow: real -> real, k: real, elos: seq<int>, i: nat, j: nat,
                            placement: seq<int>, deltas: seq<real>, placement': seq<int>, deltas': seq<real>)
    requires IsTenPower(pow) && k > 0.0 && 2 <= |elos| == |placement| == |placement'|
    requires AreChanges(Expected(pow, elos), k, placement, deltas)
    requires AreChanges(Expected(pow, elos), k, placement', deltas')
    requires i < |elos| && j < |elos| && elos[i] <= elos[j] && placement[i] == placement'[j]
    ensures deltas[i] >= deltas'[j]
  {
    var w, n := Expected(pow, elos), |elos|;
    LowerExpectsLess(pow, elos, i, j);
    MoreForLess((n - 1) as real, k, placement[i] as real, placement'[j] as real,
                Against(w, i, n), Against(w, j, n), deltas[i], deltas'[j]);
  }

  /** Of two players in one match the one placed better gains more, unless it is higher rated. */
  lemma UpsetGainsMore(pow: real -> real, k: real, elos: seq<int>, placement: seq<int>, deltas: seq<real>,
                       i: nat, j: nat)
    requires IsTenPower(pow) && k > 0.0 && 2 <= |elos| == |placement|
    requires AreChanges(Expected(pow, elos), k, placement, deltas)
    requires i < |elos| && j < |elos| && elos[i] <= elos[j] && placement[i] > placement[j]
    ensures deltas[i] > deltas[j]
  {
    var w, n := Expected(pow, elos), |elos|;
    LowerExpectsLess(pow, elos, i, j);
    MoreForLess((n - 1) as real, k, placement[i] as real, placement[j] as real,
                Against(w, i, n), Against(w, j, n), deltas[i], deltas[j]);
  }

  // ---------------------------------------------------------------- two players

  /** The first of two players wins. */
  lemma WinPays(pow: real -> real, elos: seq<int>, placement: seq<int>, deltas: seq<real>)
    requires IsPower(pow) && |elos| == |placement| == 2 && placement[0] == 1
    requires AreChanges(Expected(pow, elos), K_TWO_PLAYERS, placement, deltas)
    ensures deltas[0] == 32.0 * (1.0 - Score(pow, elos[1] - elos[0]))
  {
    FirstChange(pow, elos, placement, deltas);
  }

  /** Before rounding, a win pays more than sixteen points exactly if it is an upset, sixteen between equals,
      and never more than thirty-two. */
  lemma UpsetPaysIff(pow: real -> real, elos: seq<int>, placement: seq<int>, deltas: seq<real>)
    requires IsTenPower(pow) && |elos| == |placement| == 2 && placement[0] == 1
    requires AreChanges(Expected(pow, elos), K_TWO_PLAYERS, placement, deltas)
    ensures deltas[0] > 16.0 <==> elos[0] < elos[1]
    ensures deltas[0] < 16.0 <==> elos[0] > elos[1]
    ensures 0.0 <= deltas[0] <= 32.0
  {
    WinPays(pow, elos, placement, deltas);
    FavouriteIff(pow, elos[1] - elos[0]);
    OpponentsCancel(pow, elos[0], elos[1]);
  }

  /** Four hundred points are odds of ten to one: a player rated 1200 who beats one rated 1600 is raised to
      1229, and the loser drops to 1571. */
  lemma TenToOne(pow: real -> real, elos: seq<int>, placement: seq<int>, deltas: seq<real>)
    requires IsTenPower(pow) && elos == [1200, 1600] && placement == [1, 0]
    requires AreChanges(Expected(pow, elos), K_TWO_PLAYERS, placement, deltas)
    ensures Score(pow, 400) == 1.0 / 11.0 && NewRatings(elos, deltas) == [1229, 1571]
  {
    var w := Expected(pow, elos);
    assert 400 as real / 400.0 == 1.0;
    ScoreCases(pow, 400);
    WinPays(pow, elos, placement, deltas);
    ExpectedIsScoring(pow, elos);
  }
}
