/** The N-player rating update over exact reals.  `pow` stands for 10^x, of which only f(x) > 0 and
    f(x) f(-x) = 1 are used, and k for the scaled K factor 32 log2(N), of which only k >= 0. */
module Elos {
  import opened Basics
  import opened Matches
  import opened Ledger

  const K_TWO_PLAYERS := 32.0
  const ELO_DIFF_UPPER := 7.0
  const ELO_DIFF_LOWER := -7.0

  predicate Reciprocal(pow: real -> real, x: real) {
    pow(x) > 0.0 && pow(x) * pow(-x) == 1.0
  }

  ghost predicate IsPower(pow: real -> real) {
    forall x :: Reciprocal(pow, x)
  }

  // ---------------------------------------------------------------- expected scores

  /** The expected score against an opponent whose rating is higher by 400 * diff, odds clamped. */
  ghost function Odds(pow: real -> real, diff: real): real
    requires IsPower(pow)
  {
    assert Reciprocal(pow, diff);
    if diff > ELO_DIFF_UPPER then 0.0
    else if diff < ELO_DIFF_LOWER then 1.0
    else 1.0 / (1.0 + pow(diff))
  }

  /** One player's odds are the other's, turned round, on every branch. */
  lemma OddsCancel(pow: real -> real, diff: real)
    requires IsPower(pow)
    ensures 0.0 <= Odds(pow, diff) <= 1.0
    ensures Odds(pow, diff) + Odds(pow, -diff) == 1.0
  {
    assert Reciprocal(pow, diff) && Reciprocal(pow, -diff);
    var p, q := pow(diff), pow(-diff);
    assert p * q == 1.0;
    assert (1.0 + p) * (1.0 + q) == 1.0 + p + q + p * q;
    SumOfInverses(1.0 + p, 1.0 + q);
  }

  lemma SumOfInverses(a: real, b: real)
    requires a > 1.0 && b > 1.0 && a * b == a + b
    ensures 1.0 / a + 1.0 / b == 1.0 && 0.0 < 1.0 / a < 1.0
  {
    assert (1.0 / a + 1.0 / b) * (a * b) == b + a;
  }

  /** Who is expected to score what against whom. */
  type Table = (nat, nat) -> real

  /** Each pair shares one point. */
  ghost predicate Scoring(w: Table) {
    forall i, j :: 0.0 <= w(i, j) <= 1.0 && w(i, j) + w(j, i) == 1.0
  }

  /** The expected scores under the given ratings. */
  ghost function Expected(pow: real -> real, elos: seq<int>): Table
    requires IsPower(pow)
  {
    (i: nat, j: nat) => if i < |elos| && j < |elos| then Odds(pow, (elos[j] - elos[i]) as real / 400.0) else 0.5
  }

  lemma OpponentsCancel(pow: real -> real, a: int, b: int)
    requires IsPower(pow)
    ensures 0.0 <= Odds(pow, (b - a) as real / 400.0) <= 1.0
    ensures Odds(pow, (b - a) as real / 400.0) + Odds(pow, (a - b) as real / 400.0) == 1.0
  {
    var d := (b - a) as real / 400.0;
    assert (a - b) as real / 400.0 == -d;
    OddsCancel(pow, d);
  }

  lemma ExpectedIsScoring(pow: real -> real, elos: seq<int>)
    requires IsPower(pow)
    ensures Scoring(Expected(pow, elos))
  {
    var w := Expected(pow, elos);
    forall i: nat, j: nat
      ensures 0.0 <= w(i, j) <= 1.0 && w(i, j) + w(j, i) == 1.0
    {
      if i < |elos| && j < |elos| {
        OpponentsCancel(pow, elos[i], elos[j]);
      }
    }
  }

  /** The summed expected scores of player i against the other players below n. */
  function Against(w: Table, i: nat, n: nat): real {
    if n == 0 then 0.0 else Against(w, i, n - 1) + (if i == n - 1 then 0.0 else w(i, n - 1))
  }

  /** The same, summed over the players below k. */
  function AgainstAll(w: Table, k: nat, n: nat): real {
    if k == 0 then 0.0 else AgainstAll(w, k - 1, n) + Against(w, k - 1, n)
  }

  /** One more column: what everyone below k scores against player n. */
  function Column(w: Table, k: nat, n: nat): real
    requires k <= n
  {
    if k == 0 then 0.0 else Column(w, k - 1, n) + w(k - 1, n)
  }

  lemma {:induction false} ColumnAdds(w: Table, k: nat, n: nat)
    requires k <= n
    ensures AgainstAll(w, k, n + 1) == AgainstAll(w, k, n) + Column(w, k, n)
  {
    if k > 0 {
      ColumnAdds(w, k - 1, n);
    }
  }

  lemma {:induction false} ColumnCancels(w: Table, k: nat, n: nat)
    requires Scoring(w) && k <= n
    ensures Column(w, k, n) + Against(w, n, k) == k as real
  {
    if k > 0 {
      ColumnCancels(w, k - 1, n);
    }
  }

  /** 0 + 1 + ... + (n - 1). */
  function Triangle(n: nat): nat {
    if n == 0 then 0 else Triangle(n - 1) + (n - 1)
  }

  /** All expected scores together make one point per pair of players, whatever the ratings. */
  lemma {:induction false} ExpectationsSum(w: Table, n: nat)
    requires Scoring(w)
    ensures AgainstAll(w, n, n) == Triangle(n) as real
  {
    if n > 0 {
      ExpectationsSum(w, n - 1);
      ColumnAdds(w, n - 1, n - 1);
      ColumnCancels(w, n - 1, n - 1);
    }
  }

  lemma {:induction false} AgainstIsBounded(w: Table, i: nat, n: nat)
    requires Scoring(w)
    ensures 0.0 <= Against(w, i, n) <= (if i < n then n - 1 else n) as real
  {
    if n > 0 {
      AgainstIsBounded(w, i, n - 1);
    }
  }

  // ---------------------------------------------------------------- placements

  function Sum(s: seq<int>): int {
    if s == [] then 0 else Sum(s[..|s| - 1]) + s[|s| - 1]
  }

  lemma {:induction false} SumErase(s: seq<int>, k: nat)
    requires k < |s|
    ensures Sum(s) == Sum(s[..k] + s[k + 1..]) + s[k]
  {
    var n := |s| - 1;
    if k == n {
      assert s[..k] + s[k + 1..] == s[..n];
    } else {
      SumErase(s[..n], k);
      assert (s[..k] + s[k + 1..])[..n - 1] == s[..n][..k] + s[..n][k + 1..];
    }
  }

  function Upto(n: nat): (r: set<int>)
    ensures |r| == n && forall i :: i in r <==> 0 <= i < n
  {
    if n == 0 then {} else Upto(n - 1) + {n - 1}
  }

  /** The values of s below position k. */
  function Values(s: seq<int>, k: nat): set<int>
    requires k <= |s|
  {
    if k == 0 then {} else Values(s, k - 1) + {s[k - 1]}
  }

  lemma {:induction false} ValuesAre(s: seq<int>, k: nat, v: int)
    requires k <= |s|
    ensures v in Values(s, k) <==> v in s[..k]
  {
    if k > 0 {
      ValuesAre(s, k - 1, v);
      assert s[..k] == s[..k - 1] + [s[k - 1]];
    }
  }

  lemma {:induction false} ValuesSize(s: seq<int>, k: nat)
    requires IsPermutation(s) && k <= |s|
    ensures |Values(s, k)| == k
  {
    if k > 0 {
      ValuesSize(s, k - 1);
      ValuesAre(s, k - 1, s[k - 1]);
    }
  }

  /** A ranking of n players takes every rank below n. */
  lemma RankIsTaken(s: seq<int>, rank: nat) returns (p: nat)
    requires IsPermutation(s) && rank < |s|
    ensures p < |s| && s[p] == rank
  {
    var values := Values(s, |s|);
    ValuesSize(s, |s|);
    assert s[..|s|] == s;
    forall v | v in values
      ensures v in Upto(|s|)
    {
      ValuesAre(s, |s|, v);
    }
    ValuesAre(s, |s|, rank);
    if rank !in values {
      SubsetIsNoLarger(values, Upto(|s|) - {rank as int});
    }
    p :| 0 <= p < |s| && s[p] == rank;
  }

  lemma {:induction false} SubsetIsNoLarger(a: set<int>, b: set<int>)
    requires a <= b
    ensures |a| <= |b|
  {
    assert b == a + (b - a);
  }

  lemma EraseTop(s: seq<int>, k: nat)
    requires IsPermutation(s) && k < |s| && s[k] == |s| - 1
    ensures IsPermutation(s[..k] + s[k + 1..])
  {
    var rest := s[..k] + s[k + 1..];
    assert forall p :: 0 <= p < |rest| ==> rest[p] == s[if p < k then p else p + 1];
  }

  lemma {:induction false} PlacementsSum(s: seq<int>)
    requires IsPermutation(s)
    ensures Sum(s) == Triangle(|s|)
    decreases |s|
  {
    if s != [] {
      var k := RankIsTaken(s, |s| - 1);
      EraseTop(s, k);
      PlacementsSum(s[..k] + s[k + 1..]);
      SumErase(s, k);
    }
  }

  // ---------------------------------------------------------------- changes before rounding

  /** The change of one player, k_scaled * (placement / m - expected / m) with m = N - 1, multiplied
      out. */
  predicate IsChange(m: real, k: real, placement: real, expected: real, delta: real) {
    m * delta == k * (placement - expected)
  }

  /** q is x / m. */
  predicate IsShare(m: real, x: real, q: real) {
    m * q == x
  }

  /** d is k * (p - e). */
  predicate IsStep(k: real, p: real, e: real, d: real) {
    d == k * (p - e)
  }

  lemma FormulaIsChange(m: real, k: real, placement: real, expected: real, p: real, e: real, d: real)
    requires IsShare(m, placement, p) && IsShare(m, expected, e) && IsStep(k, p, e, d)
    ensures IsChange(m, k, placement, expected, d)
  {
    assert m * (p - e) == placement - expected;
    assert m * (k * (p - e)) == k * (m * (p - e));
  }

  /** The changes of all players under table w.  They are determined: N - 1 is positive. */
  ghost predicate AreChanges(w: Table, k: real, placement: seq<int>, deltas: seq<real>) {
    && |deltas| == |placement|
    && forall i {:trigger deltas[i]} :: 0 <= i < |deltas| ==>
         IsChange((|placement| - 1) as real, k, placement[i] as real, Against(w, i, |placement|), deltas[i])
  }

  function RealSum(s: seq<real>): real {
    if s == [] then 0.0 else RealSum(s[..|s| - 1]) + s[|s| - 1]
  }

  lemma ChangesAdd(m: real, k: real, p: real, a: real, d: real, p': real, a': real, d': real)
    requires IsChange(m, k, p, a, d) && IsChange(m, k, p', a', d')
    ensures IsChange(m, k, p + p', a + a', d + d')
  {
  }

  lemma NoSurpriseNoChange(m: real, k: real, p: real, d: real)
    requires m > 0.0 && IsChange(m, k, p, p, d)
    ensures d == 0.0
  {
  }

  lemma {:induction false} ChangesSum(w: Table, k: real, placement: seq<int>, deltas: seq<real>, n: nat)
    requires AreChanges(w, k, placement, deltas) && n <= |placement|
    ensures IsChange((|placement| - 1) as real, k, Sum(placement[..n]) as real, AgainstAll(w, n, |placement|),
                     RealSum(deltas[..n]))
  {
    if n > 0 {
      ChangesSum(w, k, placement, deltas, n - 1);
      assert placement[..n][..n - 1] == placement[..n - 1] && deltas[..n][..n - 1] == deltas[..n - 1];
      ChangesAdd((|placement| - 1) as real, k, Sum(placement[..n - 1]) as real, AgainstAll(w, n - 1, |placement|),
                 RealSum(deltas[..n - 1]), placement[n - 1] as real, Against(w, n - 1, |placement|), deltas[n - 1]);
    }
  }

  /** Before rounding, the changes of a ranked match cancel out. */
  lemma ChangesCancel(w: Table, k: real, placement: seq<int>, deltas: seq<real>)
    requires Scoring(w) && |placement| >= 2 && AreChanges(w, k, placement, deltas) && IsPermutation(placement)
    ensures RealSum(deltas) == 0.0
  {
    var n := |placement|;
    PlacementsSum(placement);
    ExpectationsSum(w, n);
    ChangesSum(w, k, placement, deltas, n);
    assert placement[..n] == placement && deltas[..n] == deltas;
    NoSurpriseNoChange((n - 1) as real, k, Triangle(n) as real, RealSum(deltas));
  }

  lemma Spread(x: real, y: real, z: real)
    ensures x * (y - z) == x * y - x * z
  {
  }

  lemma Positive(x: real, y: real)
    requires x > 0.0 && y > 0.0
    ensures x * y > 0.0
  {
  }

  lemma SignOfFactor(m: real, x: real)
    requires m > 0.0
    ensures m * x >= 0.0 ==> x >= 0.0
  {
    if x < 0.0 {
      Positive(m, 0.0 - x);
      Spread(m, 0.0, x);
    }
  }

  /** k e is at most k m, so e's share of k is at most k. */
  lemma ShareIsBounded(m: real, k: real, e: real, d: real)
    requires m > 0.0 && k >= 0.0 && e <= m && m * d == k * e
    ensures d <= k
  {
    NonNegative(k, m - e);
    Spread(k, m, e);
    Spread(m, k, d);
    SignOfFactor(m, k - d);
  }

  lemma BoundedChange(m: real, k: real, p: real, a: real, d: real)
    requires m > 0.0 && k >= 0.0 && 0.0 <= p <= m && 0.0 <= a <= m && IsChange(m, k, p, a, d)
    ensures -k <= d <= k
  {
    ShareIsBounded(m, k, p - a, d);
    Spread(m, 0.0, d);
    Spread(k, 0.0, p - a);
    ShareIsBounded(m, k, -(p - a), -d);
  }

  /** No change exceeds the scaled K factor. */
  lemma ChangeIsBounded(w: Table, k: real, placement: seq<int>, deltas: seq<real>, i: nat)
    requires Scoring(w) && k >= 0.0 && |placement| >= 2 && AreChanges(w, k, placement, deltas)
    requires i < |placement| && 0 <= placement[i] < |placement|
    ensures -k <= deltas[i] <= k
  {
    AgainstIsBounded(w, i, |placement|);
    BoundedChange((|placement| - 1) as real, k, placement[i] as real, Against(w, i, |placement|), deltas[i]);
  }

  lemma NonNegative(x: real, y: real)
    requires x >= 0.0 && y >= 0.0
    ensures x * y >= 0.0
  {
  }

  lemma GainsAtLeastExpected(m: real, k: real, p: real, a: real, d: real)
    requires m > 0.0 && k >= 0.0 && IsChange(m, k, p, a, d) && p >= a
    ensures d >= 0.0
  {
    NonNegative(k, p - a);
    SignOfFactor(m, d);
  }

  lemma LosesAtMostExpected(m: real, k: real, p: real, a: real, d: real)
    requires m > 0.0 && k >= 0.0 && IsChange(m, k, p, a, d) && p <= a
    ensures d <= 0.0
  {
    NonNegative(k, a - p);
    assert m * -d == k * (a - p);
    SignOfFactor(m, -d);
  }

  /** The winner never loses points and the first one out never gains any. */
  lemma WinnerGains(w: Table, k: real, placement: seq<int>, deltas: seq<real>, i: nat)
    requires Scoring(w) && k >= 0.0 && |placement| >= 2 && AreChanges(w, k, placement, deltas) && i < |placement|
    ensures placement[i] == |placement| - 1 ==> deltas[i] >= 0.0
    ensures placement[i] == 0 ==> deltas[i] <= 0.0
  {
    AgainstIsBounded(w, i, |placement|);
    if placement[i] == |placement| - 1 {
      GainsAtLeastExpected((|placement| - 1) as real, k, placement[i] as real, Against(w, i, |placement|), deltas[i]);
    }
    if placement[i] == 0 {
      LosesAtMostExpected((|placement| - 1) as real, k, placement[i] as real, Against(w, i, |placement|), deltas[i]);
    }
  }

  /** Two rows of a table that differ only against each other. */
  lemma {:induction false} EqualRows(w: Table, i: nat, j: nat, n: nat)
    requires i != j && w(i, j) == w(j, i) && forall x: nat :: x < n && x != i && x != j ==> w(i, x) == w(j, x)
    ensures Against(w, i, n) - (if j < n then w(i, j) else 0.0) == Against(w, j, n) - (if i < n then w(j, i) else 0.0)
  {
    if n > 0 {
      EqualRows(w, i, j, n - 1);
    }
  }

  lemma GreaterChange(m: real, k: real, p: real, p': real, a: real, d: real, d': real)
    requires m > 0.0 && k > 0.0 && p > p' && IsChange(m, k, p, a, d) && IsChange(m, k, p', a, d')
    ensures d > d'
  {
    assert k * (p - p') > 0.0;
    assert m * (d - d') == k * (p - p');
    assert d <= d' ==> m * (d - d') <= 0.0;
  }

  /** Of two players with one rating, the one placed better gains more. */
  lemma BetterPlacedGainsMore(pow: real -> real, k: real, elos: seq<int>, placement: seq<int>, deltas: seq<real>,
                              i: nat, j: nat)
    requires IsPower(pow) && k > 0.0 && 2 <= |placement| == |elos|
    requires AreChanges(Expected(pow, elos), k, placement, deltas)
    requires i < |elos| && j < |elos| && elos[i] == elos[j] && placement[i] > placement[j]
    ensures deltas[i] > deltas[j]
  {
    var w, n := Expected(pow, elos), |placement|;
    EqualRows(w, i, j, n);
    GreaterChange((n - 1) as real, k, placement[i] as real, placement[j] as real,
                  Against(w, i, n), deltas[i], deltas[j]);
  }

  // ---------------------------------------------------------------- rounding and the floor

  /** std::round: to the nearest integer, halves away from zero. */
  function Round(x: real): (r: int)
    ensures -0.5 <= r as real - x <= 0.5
  {
    if x >= 0.0 then (x + 0.5).Floor else -((0.5 - x).Floor)
  }

  function NewRating(elo: int, delta: real): int {
    var r := Round(elo as real + delta);
    if r < ELO_FLOOR then ELO_FLOOR else r
  }

  function NewRatings(elos: seq<int>, deltas: seq<real>): (r: seq<int>)
    requires |elos| == |deltas|
    ensures |r| == |elos| && forall i :: 0 <= i < |r| ==> r[i] == NewRating(elos[i], deltas[i])
  {
    if elos == [] then []
    else
      var n := |elos| - 1;
      NewRatings(elos[..n], deltas[..n]) + [NewRating(elos[n], deltas[n])]
  }

  ghost predicate RatedWith(w: Table, k: real, elos: seq<int>, placement: seq<int>, updated: seq<int>,
                            deltas: seq<real>)
  {
    |elos| == |deltas| && AreChanges(w, k, placement, deltas) && updated == NewRatings(elos, deltas)
  }

  /** The new ratings are the old ones plus the changes, rounded and floored. */
  ghost predicate RatedBy(w: Table, k: real, elos: seq<int>, placement: seq<int>, updated: seq<int>) {
    exists deltas :: RatedWith(w, k, elos, placement, updated, deltas)
  }

  /** So the update is determined. */
  lemma UpdateIsDetermined(w: Table, k: real, elos: seq<int>, placement: seq<int>,
                           updated: seq<int>, updated': seq<int>)
    requires |placement| >= 2
    requires RatedBy(w, k, elos, placement, updated) && RatedBy(w, k, elos, placement, updated')
    ensures updated == updated'
  {
    var d :| RatedWith(w, k, elos, placement, updated, d);
    var d' :| RatedWith(w, k, elos, placement, updated', d');
    SameChanges(w, k, placement, d, d');
  }

  lemma SameChanges(w: Table, k: real, placement: seq<int>, d: seq<real>, d': seq<real>)
    requires |placement| >= 2 && AreChanges(w, k, placement, d) && AreChanges(w, k, placement, d')
    ensures d == d'
  {
    forall i | 0 <= i < |d|
      ensures d[i] == d'[i]
    {
      SameChange((|placement| - 1) as real, k, placement[i] as real, Against(w, i, |placement|), d[i], d'[i]);
    }
  }

  lemma SameChange(m: real, k: real, p: real, a: real, x: real, y: real)
    requires m > 0.0 && IsChange(m, k, p, a, x) && IsChange(m, k, p, a, y)
    ensures x == y
  {
    SameProduct(m, x, y);
  }

  lemma SameProduct(m: real, x: real, y: real)
    requires m > 0.0 && m * x == m * y
    ensures x == y
  {
    Spread(m, x, y);
    Spread(m, y, x);
    SignOfFactor(m, x - y);
    SignOfFactor(m, y - x);
  }

  /** No new rating is lifted to the floor. */
  predicate NoFloor(elos: seq<int>, deltas: seq<real>)
    requires |elos| == |deltas|
  {
    forall i :: 0 <= i < |elos| ==> Round(elos[i] as real + deltas[i]) >= ELO_FLOOR
  }

  /** How far rounding and the floor take a total away from the unrounded one. */
  function Drift(elos: seq<int>, deltas: seq<real>): real
    requires |elos| == |deltas|
  {
    (Sum(NewRatings(elos, deltas)) - Sum(elos)) as real - RealSum(deltas)
  }

  lemma LastDrift(elos: seq<int>, deltas: seq<real>)
    requires |elos| == |deltas| > 0
    ensures var n := |elos| - 1;
            Drift(elos, deltas) ==
            Drift(elos[..n], deltas[..n]) + ((NewRating(elos[n], deltas[n]) - elos[n]) as real - deltas[n])
  {
    var n := |elos| - 1;
    assert NewRatings(elos, deltas)[..n] == NewRatings(elos[..n], deltas[..n]);
  }

  lemma OneDrift(elo: int, delta: real)
    ensures (NewRating(elo, delta) - elo) as real - delta >= -0.5
    ensures Round(elo as real + delta) >= ELO_FLOOR ==> (NewRating(elo, delta) - elo) as real - delta <= 0.5
  {
    assert (NewRating(elo, delta) - elo) as real == NewRating(elo, delta) as real - elo as real;
  }

  lemma {:induction false} RoundingDrift(elos: seq<int>, deltas: seq<real>)
    requires |elos| == |deltas|
    ensures Drift(elos, deltas) >= -(|elos| as real / 2.0)
    ensures NoFloor(elos, deltas) ==> Drift(elos, deltas) <= |elos| as real / 2.0
    decreases |elos|
  {
    if elos != [] {
      var n := |elos| - 1;
      RoundingDrift(elos[..n], deltas[..n]);
      LastDrift(elos, deltas);
      OneDrift(elos[n], deltas[n]);
      assert NoFloor(elos, deltas) ==> NoFloor(elos[..n], deltas[..n]);
    }
  }

  /** After rounding, the total never drops by more than half a point a player, and moves by no more
      than that either way when no floor applies. */
  lemma TotalIsNearlyKept(w: Table, k: real, elos: seq<int>, placement: seq<int>, deltas: seq<real>)
    requires Scoring(w) && 2 <= |placement| == |elos| && AreChanges(w, k, placement, deltas) && IsPermutation(placement)
    ensures var moved := 2 * (Sum(NewRatings(elos, deltas)) - Sum(elos));
            moved >= -|elos| && (NoFloor(elos, deltas) ==> moved <= |elos|)
  {
    ChangesCancel(w, k, placement, deltas);
    RoundingDrift(elos, deltas);
  }

  /** A rating at or above the floor changes by at most k + 1/2, and stays at or above it. */
  lemma RatingChangeIsBounded(w: Table, k: real, elos: seq<int>, placement: seq<int>, deltas: seq<real>, i: nat)
    requires Scoring(w) && k >= 0.0 && 2 <= |placement| == |elos| && AreChanges(w, k, placement, deltas)
    requires i < |elos| && 0 <= placement[i] < |placement| && elos[i] >= ELO_FLOOR
    ensures var r := NewRatings(elos, deltas)[i];
            ELO_FLOOR <= r && -k - 0.5 <= (r - elos[i]) as real <= k + 0.5
  {
    ChangeIsBounded(w, k, placement, deltas, i);
  }

  // ---------------------------------------------------------------- is an update zero sum?

  predicate IsHalf(d: real) {
    (d + 0.5).Floor as real == d + 0.5
  }

  lemma RoundPositive(a: int, d: real)
    requires a as real + d >= 0.0
    ensures Round(a as real + d) == a + (d + 0.5).Floor
  {
  }

  lemma NotFloored(elo: int, d: real)
    requires elo as real + d >= 0.0 && Round(elo as real + d) >= ELO_FLOOR
    ensures NewRating(elo, d) == elo + (d + 0.5).Floor
  {
    RoundPositive(elo, d);
  }

  lemma OppositeFloors(d: real)
    ensures (d + 0.5).Floor + (-d + 0.5).Floor == 0 <==> !IsHalf(d)
  {
  }

  lemma PairSum(s: seq<int>)
    requires |s| == 2
    ensures Sum(s) == s[0] + s[1]
  {
    assert s[..1][..0] == [] && Sum(s[..1]) == s[0];
  }

  lemma RealPairSum(s: seq<real>)
    requires |s| == 2
    ensures RealSum(s) == s[0] + s[1]
  {
    assert s[..1][..0] == [] && RealSum(s[..1]) == s[0];
  }

  lemma TwoNewRatings(elos: seq<int>, deltas: seq<real>)
    requires |elos| == |deltas| == 2 && NoFloor(elos, deltas) && deltas[1] == -deltas[0]
    requires elos[0] as real + deltas[0] >= 0.0 && elos[1] as real + deltas[1] >= 0.0
    ensures Sum(NewRatings(elos, deltas)) == Sum(elos) <==> !IsHalf(deltas[0])
  {
    PairKeepsSumIff(elos[0], elos[1], deltas[0]);
    PairSum(elos);
    PairSum(NewRatings(elos, deltas));
  }

  lemma PairKeepsSumIff(a: int, b: int, d: real)
    requires a as real + d >= 0.0 && Round(a as real + d) >= ELO_FLOOR
    requires b as real + -d >= 0.0 && Round(b as real + -d) >= ELO_FLOOR
    ensures NewRating(a, d) + NewRating(b, -d) == a + b <==> !IsHalf(d)
  {
    NotFloored(a, d);
    NotFloored(b, -d);
    OppositeFloors(d);
  }

  /** A two-player update in which no floor applies is zero sum exactly when the unrounded change does
      not lie half way between two integers.  (A half is rounded up for both players.) */
  lemma TwoPlayersZeroSumIff(w: Table, elos: seq<int>, placement: seq<int>, deltas: seq<real>)
    requires Scoring(w) && AreChanges(w, K_TWO_PLAYERS, placement, deltas)
    requires |elos| == |placement| == 2 && IsPermutation(placement) && elos[0] >= ELO_FLOOR && elos[1] >= ELO_FLOOR
    requires NoFloor(elos, deltas)
    ensures Sum(NewRatings(elos, deltas)) == Sum(elos) <==> !IsHalf(deltas[0])
  {
    ChangesCancel(w, K_TWO_PLAYERS, placement, deltas);
    RealPairSum(deltas);
    ChangeIsBounded(w, K_TWO_PLAYERS, placement, deltas, 0);
    ChangeIsBounded(w, K_TWO_PLAYERS, placement, deltas, 1);
    TwoNewRatings(elos, deltas);
  }

  lemma UnitRoot(p: real)
    requires p > 0.0 && p * p == 1.0
    ensures p == 1.0
  {
    assert p > 1.0 ==> p * p > p;
    assert p < 1.0 ==> p * p < p;
  }

  lemma EvenOdds(pow: real -> real)
    requires IsPower(pow)
    ensures pow(0.0) == 1.0
  {
    assert Reciprocal(pow, 0.0) && -0.0 == 0.0;
    UnitRoot(pow(0.0));
  }

  /** One player far below three equal ones. */
  predicate FarBelow(elos: seq<int>, placement: seq<int>) {
    |elos| == |placement| == 4 && elos[0] == 500 && elos[1] == elos[2] == elos[3] == 4000
    && placement[0] == 1 && placement[1] == 0 && placement[2] == 2 && placement[3] == 3
  }

  lemma FarBelowTable(pow: real -> real, elos: seq<int>, placement: seq<int>, i: nat, j: nat)
    requires IsPower(pow) && FarBelow(elos, placement) && i < 4 && j < 4
    ensures Expected(pow, elos)(i, j) == if elos[i] == elos[j] then 0.5 else if i == 0 then 0.0 else 1.0
  {
    EvenOdds(pow);
  }

  lemma FarBelowAgainst(pow: real -> real, elos: seq<int>, placement: seq<int>, i: nat)
    requires IsPower(pow) && FarBelow(elos, placement) && i < 4
    ensures Against(Expected(pow, elos), i, 4) == if i == 0 then 0.0 else 2.0
  {
    var w := Expected(pow, elos);
    FarBelowTable(pow, elos, placement, i, 0);
    FarBelowTable(pow, elos, placement, i, 1);
    FarBelowTable(pow, elos, placement, i, 2);
    FarBelowTable(pow, elos, placement, i, 3);
    assert Against(w, i, 1) == if i == 0 then 0.0 else 1.0;
    assert Against(w, i, 2) == Against(w, i, 1) + (if i == 0 || i == 1 then 0.0 else 0.5);
    assert Against(w, i, 3) == Against(w, i, 2) + (if i == 0 || i == 2 then 0.0 else 0.5);
  }

  /** With more players the update is not zero sum in general, floor or no floor: in this match of four,
      where log2(N) is 2, a point is lost. */
  lemma FourPlayersLoseAPoint(pow: real -> real, elos: seq<int>, placement: seq<int>, deltas: seq<real>)
    requires IsPower(pow) && FarBelow(elos, placement)
    requires AreChanges(Expected(pow, elos), 64.0, placement, deltas)
    ensures IsPermutation(placement) && NoFloor(elos, deltas)
    ensures Sum(NewRatings(elos, deltas)) == Sum(elos) - 1
  {
    FarBelowAgainst(pow, elos, placement, 0);
    FarBelowAgainst(pow, elos, placement, 1);
    FarBelowAgainst(pow, elos, placement, 2);
    FarBelowAgainst(pow, elos, placement, 3);
    FarBelowChanges(Expected(pow, elos), elos, placement, deltas);
    FarBelowRatings(elos, deltas);
  }

  lemma FarBelowChanges(w: Table, elos: seq<int>, placement: seq<int>, deltas: seq<real>)
    requires FarBelow(elos, placement) && AreChanges(w, 64.0, placement, deltas)
    requires Against(w, 0, 4) == 0.0 && Against(w, 1, 4) == Against(w, 2, 4) == Against(w, 3, 4) == 2.0
    ensures 3.0 * deltas[0] == 64.0 && 3.0 * deltas[1] == -128.0 && deltas[2] == 0.0 && 3.0 * deltas[3] == 64.0
  {
  }

  lemma FarBelowRatings(elos: seq<int>, deltas: seq<real>)
    requires |elos| == |deltas| == 4 && elos[0] == 500 && elos[1] == elos[2] == elos[3] == 4000
    requires 3.0 * deltas[0] == 64.0 && 3.0 * deltas[1] == -128.0 && deltas[2] == 0.0 && 3.0 * deltas[3] == 64.0
    ensures NoFloor(elos, deltas) && Sum(NewRatings(elos, deltas)) == Sum(elos) - 1
  {
    var r := NewRatings(elos, deltas);
    assert r[0] == 521 && r[1] == 3957 && r[2] == 4000 && r[3] == 4021;
    FourSum(r);
    FourSum(elos);
  }

  lemma SumNext(s: seq<int>, k: nat)
    requires k < |s|
    ensures Sum(s[..k + 1]) == Sum(s[..k]) + s[k]
  {
    assert s[..k + 1][..k] == s[..k];
  }

  lemma FourSum(s: seq<int>)
    requires |s| == 4
    ensures Sum(s) == s[0] + s[1] + s[2] + s[3]
  {
    SumNext(s, 0);
    SumNext(s, 1);
    SumNext(s, 2);
    SumNext(s, 3);
    assert s[..4] == s && s[..0] == [];
  }

  // ---------------------------------------------------------------- concluded matches

  /** The order a concluded match hands to the database is a ranking of its players, so its update
      cancels out before rounding and nearly keeps the total after it. */
  lemma ConcludedMatchIsBalanced(m: Match, events: seq<Event>, pow: real -> real, k: real, elos: seq<int>,
                                 deltas: seq<real>)
    requires Initial(m) && Sane(m) && CanRun(m, events) && After(m, events).phase == Concluded && IsPower(pow)
    requires |elos| == |After(m, events).order| && AreChanges(Expected(pow, elos), k, After(m, events).order, deltas)
    ensures RealSum(deltas) == 0.0
    ensures var moved := 2 * (Sum(NewRatings(elos, deltas)) - Sum(elos));
            moved >= -|elos| && (NoFloor(elos, deltas) ==> moved <= |elos|)
  {
    ConclusionRanksEveryone(m, events);
    ExpectedIsScoring(pow, elos);
    RunIsSane(m, events);
    ChangesCancel(Expected(pow, elos), k, After(m, events).order, deltas);
    TotalIsNearlyKept(Expected(pow, elos), k, elos, After(m, events).order, deltas);
  }

  /** And nobody at or above the floor moves by more than the scaled K factor and a half. */
  lemma ConcludedRatingIsBounded(m: Match, events: seq<Event>, pow: real -> real, k: real, elos: seq<int>,
                                 deltas: seq<real>, i: nat)
    requires Initial(m) && Sane(m) && CanRun(m, events) && After(m, events).phase == Concluded && IsPower(pow)
    requires |elos| == |After(m, events).order| && AreChanges(Expected(pow, elos), k, After(m, events).order, deltas)
    requires k >= 0.0 && i < |elos| && elos[i] >= ELO_FLOOR
    ensures ELO_FLOOR <= NewRatings(elos, deltas)[i]
    ensures -k - 0.5 <= (NewRatings(elos, deltas)[i] - elos[i]) as real <= k + 0.5
  {
    ConclusionRanksEveryone(m, events);
    ExpectedIsScoring(pow, elos);
    RunIsSane(m, events);
    RatingChangeIsBounded(Expected(pow, elos), k, elos, After(m, events).order, deltas, i);
  }

  // ---------------------------------------------------------------- the computation

  /** The clamped odds, as the inner loop computes them. */
  method ExpectedScore(pow: real -> real, initial: seq<int>, i: nat, j: nat) returns (expected: real)
    requires IsPower(pow) && i < |initial| && j < |initial|
    ensures expected == Expected(pow, initial)(i, j)
  {
    var diff := (initial[j] - initial[i]) as real / 400.0;
    assert Reciprocal(pow, diff);
    if diff > ELO_DIFF_UPPER {
      expected := 0.0;
    } else if diff < ELO_DIFF_LOWER {
      expected := 1.0;
    } else {
      expected := 1.0 / (1.0 + pow(diff));
    }
  }

  /** The expected scores of one player, summed in the inner loop. */
  method ExpectedSum(pow: real -> real, initial: seq<int>, i: nat, ghost w: Table) returns (sum: real)
    requires IsPower(pow) && i < |initial| && w == Expected(pow, initial)
    ensures sum == Against(w, i, |initial|)
  {
    sum := 0.0;
    for j := 0 to |initial|
      invariant sum == Against(w, i, j)
    {
      if i == j {
        continue;
      }
      var score := ExpectedScore(pow, initial, i, j);
      sum := sum + score;
    }
  }

  /** The expected scores of all players. */
  method ExpectedSums(pow: real -> real, initial: seq<int>, ghost w: Table) returns (sums: array<real>)
    requires IsPower(pow) && w == Expected(pow, initial)
    ensures fresh(sums) && sums.Length == |initial|
    ensures forall i :: 0 <= i < |initial| ==> sums[i] == Against(w, i, |initial|)
  {
    sums := new real[|initial|](_ => 0.0);
    for i := 0 to |initial|
      invariant forall q :: 0 <= q < i ==> sums[q] == Against(w, q, |initial|)
    {
      sums[i] := ExpectedSum(pow, initial, i, w);
    }
  }

  method DivideAll(m: real, values: array<real>)
    requires m > 0.0
    modifies values
    ensures forall i :: 0 <= i < values.Length ==> IsShare(m, old(values[i]), values[i])
  {
    for i := 0 to values.Length
      invariant forall q :: 0 <= q < i ==> IsShare(m, old(values[q]), values[q])
      invariant forall q :: i <= q < values.Length ==> values[q] == old(values[q])
    {
      values[i] := values[i] / m;
    }
  }

  /** The rating step for each player. */
  method Apply(k: real, initial: seq<int>, normalized: array<real>, expected: array<real>)
    returns (updated: seq<int>, ghost deltas: seq<real>)
    requires normalized.Length == expected.Length == |initial|
    ensures |deltas| == |initial| && updated == NewRatings(initial, deltas)
    ensures forall i :: 0 <= i < |initial| ==> IsStep(k, normalized[i], expected[i], deltas[i])
  {
    updated, deltas := [], [];
    for i := 0 to |initial|
      invariant |updated| == |deltas| == i
      invariant forall q :: 0 <= q < i ==> IsStep(k, normalized[q], expected[q], deltas[q])
      invariant forall q :: 0 <= q < i ==> updated[q] == NewRating(initial[q], deltas[q])
    {
      var delta := k * (normalized[i] - expected[i]);
      var rating := Round(initial[i] as real + delta);
      updated := updated + [if rating < ELO_FLOOR then ELO_FLOOR else rating];
      deltas := deltas + [delta];
    }
  }

  lemma FormulasAreChanges(w: Table, k: real, placement: seq<int>, normalized: seq<real>, expected: seq<real>,
                           deltas: seq<real>)
    requires |normalized| == |expected| == |deltas| == |placement|
    requires forall i :: 0 <= i < |placement| ==>
               IsShare((|placement| - 1) as real, placement[i] as real, normalized[i])
    requires forall i :: 0 <= i < |placement| ==>
               IsShare((|placement| - 1) as real, Against(w, i, |placement|), expected[i])
    requires forall i :: 0 <= i < |placement| ==> IsStep(k, normalized[i], expected[i], deltas[i])
    ensures AreChanges(w, k, placement, deltas)
  {
    forall i | 0 <= i < |placement|
      ensures IsChange((|placement| - 1) as real, k, placement[i] as real, Against(w, i, |placement|), deltas[i])
    {
      FormulaIsChange((|placement| - 1) as real, k, placement[i] as real, Against(w, i, |placement|),
                      normalized[i], expected[i], deltas[i]);
    }
  }

  /** The update of two or more players, their expected scores already summed. */
  method Rate(ghost w: Table, k: real, initial: seq<int>, placement: seq<int>, expected: array<real>)
    returns (updated: seq<int>, ghost deltas: seq<real>)
    requires 2 <= |placement| == |initial| == expected.Length
    requires forall i :: 0 <= i < |initial| ==> expected[i] == Against(w, i, |placement|)
    modifies expected
    ensures AreChanges(w, k, placement, deltas) && updated == NewRatings(initial, deltas)
  {
    var normalized := new real[|placement|](i requires 0 <= i < |placement| => placement[i] as real);
    DivideAll((|placement| - 1) as real, normalized);
    DivideAll((|placement| - 1) as real, expected);
    updated, deltas := Apply(k, initial, normalized, expected);
    FormulasAreChanges(w, k, placement, normalized[..], expected[..], deltas);
  }

  /** elo_updates, with the scaled K factor k = 32 log2(N). */
  method EloUpdates(pow: real -> real, k: real, initial: seq<int>, placement: seq<int>) returns (updated: seq<int>)
    requires IsPower(pow) && k >= 0.0 && (2 <= |placement| ==> |initial| == |placement|)
    ensures |placement| <= 1 ==> updated == initial
    ensures |placement| >= 2 ==> RatedBy(Expected(pow, initial), k, initial, placement, updated)
  {
    if |placement| <= 1 {
      return initial;
    }
    ghost var w := Expected(pow, initial);
    var expected := ExpectedSums(pow, initial, w);
    ghost var deltas;
    updated, deltas := Rate(w, k, initial, placement, expected);
    assert RatedWith(w, k, initial, placement, updated, deltas);
  }
}
