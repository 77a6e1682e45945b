/** The ranked queue: rating buckets, an index from players to buckets, and the greedy pass that pairs
    players inside a window that widens with the time waited. */
module Ranked {
  import opened Basics

  const MAX_ELO_BUCKET := 3000
  const NUM_BUCKETS: nat := 100
  const BUCKET_SIZE := (MAX_ELO_BUCKET - ELO_FLOOR) / NUM_BUCKETS
  const MAX_BUCKETS_DIFF: nat := 400 / BUCKET_SIZE
  /** Fifteen seconds in the clock's nanoseconds. */
  const INCREMENT: nat := 15_000_000_000

  datatype Entry = Entry(user: nat, elo: int, at: nat)

  /** A match handed to the callback, and the clock of the pass that made it. */
  datatype Pairing = Pairing(first: Entry, second: Entry, now: nat)

  /** The queue.  `joined` and `left` record every entry that was ever queued and every one that was
      cancelled. */
  datatype Pool = Pool(buckets: seq<seq<Entry>>, lookup: map<nat, nat>, paired: seq<Pairing>,
                       joined: seq<Entry>, left: seq<Entry>)

  function BucketIndex(elo: int): (i: nat)
    ensures i <= NUM_BUCKETS
  {
    if elo >= MAX_ELO_BUCKET then NUM_BUCKETS
    else if elo < ELO_FLOOR then 0
    else (elo - ELO_FLOOR) / BUCKET_SIZE
  }

  // ---------------------------------------------------------------- the index

  predicate Waiting(bucket: seq<Entry>, user: nat) {
    exists k :: 0 <= k < |bucket| && bucket[k].user == user
  }

  /** Players once each, in the order they came. */
  predicate Orderly(bucket: seq<Entry>) {
    forall k, l :: 0 <= k < l < |bucket| ==> bucket[k].user != bucket[l].user && bucket[k].at <= bucket[l].at
  }

  predicate Agrees(lookup: map<nat, nat>, i: nat, bucket: seq<Entry>) {
    forall k :: 0 <= k < |bucket| ==>
      bucket[k].user in lookup && lookup[bucket[k].user] == i && BucketIndex(bucket[k].elo) == i
  }

  /** Buckets and index hold the same players, each once and in the bucket recorded for it. */
  ghost predicate Indexed(p: Pool) {
    && |p.buckets| == NUM_BUCKETS + 1
    && (forall i :: 0 <= i < |p.buckets| ==> Agrees(p.lookup, i, p.buckets[i]) && Orderly(p.buckets[i]))
    && (forall u :: u in p.lookup ==> p.lookup[u] < |p.buckets| && Waiting(p.buckets[p.lookup[u]], u))
  }

  ghost predicate NotAfter(p: Pool, now: nat) {
    forall i, k :: 0 <= i < |p.buckets| && 0 <= k < |p.buckets[i]| ==> p.buckets[i][k].at <= now
  }

  // ---------------------------------------------------------------- joining and leaving

  function Enqueue(p: Pool, user: nat, elo: int, now: nat): Pool
    requires |p.buckets| == NUM_BUCKETS + 1
  {
    if user in p.lookup then p
    else
      var i, e := BucketIndex(elo), Entry(user, elo, now);
      p.(buckets := p.buckets[i := p.buckets[i] + [e]], lookup := p.lookup[user := i], joined := p.joined + [e])
  }

  function Find(bucket: seq<Entry>, user: nat): (k: nat)
    requires Waiting(bucket, user)
    ensures k < |bucket| && bucket[k].user == user
    ensures forall l :: 0 <= l < k ==> bucket[l].user != user
  {
    if bucket[0].user == user then 0
    else
      assert Waiting(bucket[1..], user) by {
        var k :| 0 <= k < |bucket| && bucket[k].user == user;
        assert bucket[1..][k - 1].user == user;
      }
      1 + Find(bucket[1..], user)
  }

  function Erase(bucket: seq<Entry>, k: nat): seq<Entry>
    requires k < |bucket|
  {
    bucket[..k] + bucket[k + 1..]
  }

  ghost function Cancel(p: Pool, user: nat): Pool
    requires Indexed(p)
  {
    if user !in p.lookup then p
    else
      var i := p.lookup[user];
      var k := Find(p.buckets[i], user);
      p.(buckets := p.buckets[i := Erase(p.buckets[i], k)], lookup := p.lookup - {user},
         left := p.left + [p.buckets[i][k]])
  }

  // ---------------------------------------------------------------- one pass

  /** How many buckets away an entry may look: one per fifteen seconds waited, at most sixteen. */
  function Window(e: Entry, now: nat): (d: nat)
    ensures d <= MAX_BUCKETS_DIFF
  {
    if e.at > now then 0 else Min((now - e.at) / INCREMENT, MAX_BUCKETS_DIFF)
  }

  /** The entry has waited fifteen seconds, in nanoseconds, for each of d buckets, of which there are at
      most sixteen. */
  predicate WaitedFor(e: Entry, now: nat, d: nat) {
    d <= 16 && now - e.at >= 15_000_000_000 * d
  }

  lemma WindowIs(e: Entry, now: nat, n: nat)
    requires n == now - e.at
    ensures Window(e, now) == Min(n / INCREMENT, 16)
  {
  }

  lemma QuotientReaches(n: nat, unit: nat, d: nat)
    requires unit > 0
    ensures d <= n / unit <==> unit * d <= n
  {
    var q := n / unit;
    assert unit * q <= n < unit * q + unit;
    if d <= q {
      assert unit * d <= unit * q;
    } else {
      assert unit * (q + 1) <= unit * d;
    }
  }

  lemma ReachMeaning(n: nat, unit: nat, d: nat, window: nat)
    requires unit == 15_000_000_000 && window == Min(n / unit, 16)
    ensures d <= window <==> d <= 16 && n >= 15_000_000_000 * d
  {
    QuotientReaches(n, unit, d);
  }

  /** An entry may look d buckets away exactly when it has waited for them. */
  lemma WindowMeaning(e: Entry, now: nat, d: nat)
    requires d > 0
    ensures d <= Window(e, now) <==> WaitedFor(e, now, d)
  {
    if e.at <= now {
      WindowIs(e, now, now - e.at);
      ReachMeaning(now - e.at, INCREMENT, d, Window(e, now));
    }
  }

  function Taken(p: Pool, a: Entry, b: Entry, buckets: seq<seq<Entry>>, now: nat): Pool {
    p.(buckets := buckets, lookup := p.lookup - {a.user, b.user}, paired := p.paired + [Pairing(a, b, now)])
  }

  /** The two players waiting longest in bucket i meet. */
  function PairWithin(p: Pool, i: nat, now: nat): (p': Pool)
    requires i < |p.buckets| && |p.buckets[i]| >= 2
    ensures |p'.buckets| == |p.buckets|
  {
    Taken(p, p.buckets[i][0], p.buckets[i][1], p.buckets[i := p.buckets[i][2..]], now)
  }

  /** The players waiting longest in buckets i and j meet. */
  function PairAcross(p: Pool, i: nat, j: nat, now: nat): (p': Pool)
    requires i < |p.buckets| && j < |p.buckets| && i != j && p.buckets[i] != [] && p.buckets[j] != []
    ensures |p'.buckets| == |p.buckets|
  {
    Taken(p, p.buckets[i][0], p.buckets[j][0],
          p.buckets[i := p.buckets[i][1..]][j := p.buckets[j][1..]], now)
  }

  function PairAll(p: Pool, i: nat, now: nat): (p': Pool)
    requires i < |p.buckets|
    ensures |p'.buckets| == |p.buckets|
    decreases |p.buckets[i]|
  {
    if |p.buckets[i]| < 2 then p else PairAll(PairWithin(p, i, now), i, now)
  }

  predicate Occupied(buckets: seq<seq<Entry>>, j: int) {
    0 <= j < |buckets| && buckets[j] != []
  }

  function Apart(i: int, j: int): (d: nat) {
    if i < j then j - i else i - j
  }

  /** No bucket at a distance between lo and hi from i is occupied. */
  predicate Clear(buckets: seq<seq<Entry>>, i: int, lo: int, hi: int) {
    forall j :: 0 <= j < |buckets| && lo <= Apart(i, j) <= hi ==> !Occupied(buckets, j)
  }

  /** The nearest occupied bucket at distance radius..delta from i, the lower one first. */
  function Nearest(buckets: seq<seq<Entry>>, i: nat, radius: nat, delta: nat): (j: Option<nat>)
    requires radius > 0
    ensures j.Some? ==> Occupied(buckets, j.value)
    ensures j.Some? ==> var d := Apart(i, j.value);
                        && radius <= d <= delta && Clear(buckets, i, radius, d - 1)
                        && (i < j.value ==> !Occupied(buckets, i - d))
    ensures j.None? ==> Clear(buckets, i, radius, delta)
    decreases delta + 1 - radius
  {
    if radius > delta then None
    else if Occupied(buckets, i - radius) then Some(i - radius)
    else if Occupied(buckets, i + radius) then Some(i + radius)
    else Nearest(buckets, i, radius + 1, delta)
  }

  function Visit(p: Pool, i: nat, now: nat): (p': Pool)
    requires i < |p.buckets|
    ensures |p'.buckets| == |p.buckets|
  {
    if |p.buckets[i]| >= 2 then PairAll(p, i, now)
    else if p.buckets[i] == [] then p
    else
      match Nearest(p.buckets, i, 1, Window(p.buckets[i][0], now))
      case Some(j) => PairAcross(p, i, j, now)
      case None => p
  }

  /** The visits of the buckets below k, the highest first. */
  function Sweep(p: Pool, k: nat, now: nat): (p': Pool)
    requires k <= |p.buckets|
    ensures |p'.buckets| == |p.buckets|
    decreases k
  {
    if k == 0 then p else Sweep(Visit(p, k - 1, now), k - 1, now)
  }

  function TryFormMatch(p: Pool, now: nat): Pool {
    Sweep(p, |p.buckets|, now)
  }

  // ---------------------------------------------------------------- the index is kept

  lemma JoinBucket(bucket: seq<Entry>, e: Entry, lookup: map<nat, nat>, i: nat)
    requires Agrees(lookup, i, bucket) && Orderly(bucket) && e.user !in lookup && BucketIndex(e.elo) == i
    requires forall k :: 0 <= k < |bucket| ==> bucket[k].at <= e.at
    ensures Agrees(lookup[e.user := i], i, bucket + [e]) && Orderly(bucket + [e]) && Waiting(bucket + [e], e.user)
    ensures forall u :: Waiting(bucket, u) ==> Waiting(bucket + [e], u)
  {
    assert (bucket + [e])[|bucket|] == e;
    forall u | Waiting(bucket, u)
      ensures Waiting(bucket + [e], u)
    {
      var k :| 0 <= k < |bucket| && bucket[k].user == u;
      assert (bucket + [e])[k].user == u;
    }
  }

  lemma EnqueueKeepsIndex(p: Pool, user: nat, elo: int, now: nat)
    requires Indexed(p) && NotAfter(p, now)
    ensures Indexed(Enqueue(p, user, elo, now)) && NotAfter(Enqueue(p, user, elo, now), now)
    ensures Enqueue(p, user, elo, now) == p <==> exists i :: 0 <= i < |p.buckets| && Waiting(p.buckets[i], user)
  {
    if i :| 0 <= i < |p.buckets| && Waiting(p.buckets[i], user) {
      assert Agrees(p.lookup, i, p.buckets[i]);
    }
    if user !in p.lookup {
      JoinBucket(p.buckets[BucketIndex(elo)], Entry(user, elo, now), p.lookup, BucketIndex(elo));
    }
  }

  lemma CancelKeepsIndex(p: Pool, user: nat)
    requires Indexed(p)
    ensures Indexed(Cancel(p, user))
  {
    if user in p.lookup {
      EraseKeepsIndex(p, p.lookup[user], Find(p.buckets[p.lookup[user]], user));
    }
  }

  /** Taking one entry out of its bucket and its player out of the index. */
  function Without(p: Pool, i: nat, k: nat): Pool
    requires i < |p.buckets| && k < |p.buckets[i]|
  {
    p.(buckets := p.buckets[i := Erase(p.buckets[i], k)], lookup := p.lookup - {p.buckets[i][k].user})
  }

  lemma LeaveBucket(bucket: seq<Entry>, k: nat, lookup: map<nat, nat>, i: nat)
    requires Agrees(lookup, i, bucket) && Orderly(bucket) && k < |bucket|
    ensures Agrees(lookup - {bucket[k].user}, i, Erase(bucket, k)) && Orderly(Erase(bucket, k))
    ensures forall u :: Waiting(bucket, u) && u != bucket[k].user ==> Waiting(Erase(bucket, k), u)
  {
    forall u | Waiting(bucket, u) && u != bucket[k].user
      ensures Waiting(Erase(bucket, k), u)
    {
      var l :| 0 <= l < |bucket| && bucket[l].user == u;
      assert Erase(bucket, k)[if l < k then l else l - 1].user == u;
    }
  }

  lemma EraseKeepsIndex(p: Pool, i: nat, k: nat)
    requires Indexed(p) && i < |p.buckets| && k < |p.buckets[i]|
    ensures Indexed(Without(p, i, k))
  {
    LeaveBucket(p.buckets[i], k, p.lookup, i);
  }

  // ---------------------------------------------------------------- what a pairing keeps

  /** How often an entry stands in the buckets, and in the pairings. */
  function Queued(buckets: seq<seq<Entry>>, e: Entry): nat {
    if buckets == [] then 0 else Queued(buckets[..|buckets| - 1], e) + multiset(buckets[|buckets| - 1])[e]
  }

  function InPairs(paired: seq<Pairing>, e: Entry): nat {
    if paired == [] then 0
    else
      var x := paired[|paired| - 1];
      InPairs(paired[..|paired| - 1], e) + multiset{x.first, x.second}[e]
  }

  predicate BalancedFor(p: Pool, e: Entry) {
    multiset(p.joined)[e] == Queued(p.buckets, e) + multiset(p.left)[e] + InPairs(p.paired, e)
  }

  /** Every entry that was ever queued is still queued, was cancelled, or is in one pairing, and only
      one of these. */
  ghost predicate Balanced(p: Pool) {
    forall e :: BalancedFor(p, e)
  }

  lemma {:induction false} QueuedChanges(buckets: seq<seq<Entry>>, i: nat, bucket: seq<Entry>, e: Entry)
    requires i < |buckets|
    ensures Queued(buckets[i := bucket], e) + multiset(buckets[i])[e] == Queued(buckets, e) + multiset(bucket)[e]
  {
    var n, init := |buckets| - 1, buckets[..|buckets| - 1];
    if i == n {
      assert buckets[i := bucket][..n] == init;
    } else {
      QueuedChanges(init, i, bucket, e);
      assert buckets[i := bucket][..n] == init[i := bucket];
    }
  }

  lemma EraseCounts(bucket: seq<Entry>, k: nat, e: Entry)
    requires k < |bucket|
    ensures multiset(bucket)[e] == multiset(Erase(bucket, k))[e] + multiset{bucket[k]}[e]
  {
    assert bucket == bucket[..k] + [bucket[k]] + bucket[k + 1..];
  }

  lemma EraseBalances(p: Pool, i: nat, k: nat, e: Entry)
    requires i < |p.buckets| && k < |p.buckets[i]|
    ensures Queued(p.buckets, e) == Queued(Without(p, i, k).buckets, e) + multiset{p.buckets[i][k]}[e]
  {
    QueuedChanges(p.buckets, i, Erase(p.buckets[i], k), e);
    EraseCounts(p.buckets[i], k, e);
  }

  /** The two players are in buckets no further apart than the searching one's window. */
  predicate InWindow(x: Pairing) {
    Apart(BucketIndex(x.first.elo), BucketIndex(x.second.elo)) <= Window(x.first, x.now)
  }

  /** They are d buckets apart only if the searching one has waited for d. */
  predicate WaitedEnough(x: Pairing) {
    var d := Apart(BucketIndex(x.first.elo), BucketIndex(x.second.elo));
    d > 0 ==> WaitedFor(x.first, x.now, d)
  }

  lemma InWindowMeaning(x: Pairing)
    ensures InWindow(x) <==> WaitedEnough(x)
  {
    var d := Apart(BucketIndex(x.first.elo), BucketIndex(x.second.elo));
    if d > 0 {
      WindowMeaning(x.first, x.now, d);
    }
  }

  ghost predicate Sound(p: Pool) {
    && Indexed(p) && Balanced(p)
    && forall k :: 0 <= k < |p.paired| ==> InWindow(p.paired[k])
  }

  /** The pool after the fronts of buckets i and then j have been taken out. */
  function FrontsOut(p: Pool, i: nat, j: nat): Pool
    requires i < |p.buckets| && j < |p.buckets| && p.buckets[i] != [] && p.buckets[j] != []
    requires i == j ==> |p.buckets[i]| >= 2
  {
    Without(Without(p, i, 0), j, 0)
  }

  /** What a pairing does, whichever way it was found. */
  predicate PairsUp(p: Pool, i: nat, j: nat, now: nat, p': Pool) {
    && i < |p.buckets| && j < |p.buckets| && p.buckets[i] != [] && p.buckets[j] != []
    && (i == j ==> |p.buckets[i]| >= 2)
    && var a, b := p.buckets[i][0], p.buckets[j][if i == j then 1 else 0];
       p' == FrontsOut(p, i, j).(paired := p.paired + [Pairing(a, b, now)])
  }

  lemma PairWithinPairsUp(p: Pool, i: nat, now: nat)
    requires i < |p.buckets| && |p.buckets[i]| >= 2
    ensures PairsUp(p, i, i, now, PairWithin(p, i, now))
  {
    var bucket := p.buckets[i];
    assert Erase(bucket, 0) == bucket[1..] && Erase(bucket[1..], 0) == bucket[2..];
    assert p.lookup - {bucket[0].user, bucket[1].user} == p.lookup - {bucket[0].user} - {bucket[1].user};
    assert FrontsOut(p, i, i).buckets == PairWithin(p, i, now).buckets;
  }

  lemma PairAcrossPairsUp(p: Pool, i: nat, j: nat, now: nat)
    requires i < |p.buckets| && j < |p.buckets| && i != j && p.buckets[i] != [] && p.buckets[j] != []
    ensures PairsUp(p, i, j, now, PairAcross(p, i, j, now))
  {
    var a, b := p.buckets[i][0], p.buckets[j][0];
    assert Erase(p.buckets[i], 0) == p.buckets[i][1..] && Erase(p.buckets[j], 0) == p.buckets[j][1..];
    assert p.lookup - {a.user, b.user} == p.lookup - {a.user} - {b.user};
  }

  lemma PairingBalances(p: Pool, i: nat, j: nat, now: nat, p': Pool, e: Entry)
    requires BalancedFor(p, e) && PairsUp(p, i, j, now, p')
    ensures BalancedFor(p', e)
  {
    EraseBalances(p, i, 0, e);
    EraseBalances(Without(p, i, 0), j, 0, e);
    assert p'.paired[..|p.paired|] == p.paired;
  }

  lemma PairingKeepsIndex(p: Pool, i: nat, j: nat, now: nat, p': Pool)
    requires Indexed(p) && PairsUp(p, i, j, now, p')
    ensures Indexed(p')
  {
    EraseKeepsIndex(p, i, 0);
    EraseKeepsIndex(Without(p, i, 0), j, 0);
  }

  lemma PairingKeeps(p: Pool, i: nat, j: nat, now: nat, p': Pool)
    requires Sound(p) && PairsUp(p, i, j, now, p') && Apart(i, j) <= Window(p.buckets[i][0], now)
    ensures Sound(p')
  {
    PairingKeepsIndex(p, i, j, now, p');
    forall e
      ensures BalancedFor(p', e)
    {
      PairingBalances(p, i, j, now, p', e);
    }
    assert Agrees(p.lookup, i, p.buckets[i]) && Agrees(p.lookup, j, p.buckets[j]);
  }

  lemma {:induction false} PairAllKeeps(p: Pool, i: nat, now: nat)
    requires Sound(p) && i < |p.buckets|
    ensures Sound(PairAll(p, i, now))
    decreases |p.buckets[i]|
  {
    if |p.buckets[i]| >= 2 {
      PairWithinPairsUp(p, i, now);
      PairingKeeps(p, i, i, now, PairWithin(p, i, now));
      PairAllKeeps(PairWithin(p, i, now), i, now);
    }
  }

  lemma VisitKeeps(p: Pool, i: nat, now: nat)
    requires Sound(p) && i < |p.buckets|
    ensures Sound(Visit(p, i, now))
  {
    if |p.buckets[i]| >= 2 {
      PairAllKeeps(p, i, now);
    } else if p.buckets[i] != [] {
      var j := Nearest(p.buckets, i, 1, Window(p.buckets[i][0], now));
      if j.Some? {
        PairAcrossPairsUp(p, i, j.value, now);
        PairingKeeps(p, i, j.value, now, PairAcross(p, i, j.value, now));
      }
    }
  }

  lemma {:induction false} SweepKeeps(p: Pool, k: nat, now: nat)
    requires Sound(p) && k <= |p.buckets|
    ensures Sound(Sweep(p, k, now))
    decreases k
  {
    if k > 0 {
      VisitKeeps(p, k - 1, now);
      SweepKeeps(Visit(p, k - 1, now), k - 1, now);
    }
  }

  lemma BucketBounds(elo: int)
    requires ELO_FLOOR <= elo < MAX_ELO_BUCKET
    ensures BUCKET_SIZE == 25 && 25 * BucketIndex(elo) <= elo - ELO_FLOOR < 25 * BucketIndex(elo) + 25
  {
  }

  /** Buckets are 25 points wide from 500 on; whoever is below the first or above the last is in it too. */
  lemma BucketMeaning(elo: int, i: nat)
    ensures BucketIndex(elo) == i <==>
            || (i == 0 && elo < 525)
            || (1 <= i <= 99 && 500 + 25 * i <= elo < 525 + 25 * i)
            || (i == 100 && elo >= 3000)
  {
    if ELO_FLOOR <= elo < MAX_ELO_BUCKET {
      BucketBounds(elo);
    }
  }

  /** Two paired players with ratings in [500, 3000) are less than 25 (d + 1) points apart, where d is at
      most the number of fifteen seconds the searching one has waited, and at most sixteen. */
  lemma PairedRatingsAreClose(x: Pairing) returns (d: nat)
    requires InWindow(x) && 500 <= x.first.elo < 3000 && 500 <= x.second.elo < 3000
    ensures d == 0 || WaitedFor(x.first, x.now, d)
    ensures Apart(x.first.elo, x.second.elo) < 25 * (d + 1) <= 425
  {
    d := Apart(BucketIndex(x.first.elo), BucketIndex(x.second.elo));
    InWindowMeaning(x);
    BucketBounds(x.first.elo);
    BucketBounds(x.second.elo);
  }

  // ---------------------------------------------------------------- a pass only takes fronts

  /** What is left of a bucket after entries were taken from its front. */
  predicate Suffix(bucket: seq<Entry>, rest: seq<Entry>) {
    |rest| <= |bucket| && rest == bucket[|bucket| - |rest|..]
  }

  ghost predicate Shrinks(p: Pool, p': Pool) {
    && |p'.buckets| == |p.buckets|
    && p'.joined == p.joined && p'.left == p.left
    && forall i {:trigger p'.buckets[i]} :: 0 <= i < |p.buckets| ==> Suffix(p.buckets[i], p'.buckets[i])
  }

  lemma ShrinksOn(p: Pool, p': Pool, p'': Pool)
    requires Shrinks(p, p') && Shrinks(p', p'')
    ensures Shrinks(p, p'')
  {
    forall i | 0 <= i < |p.buckets|
      ensures Suffix(p.buckets[i], p''.buckets[i])
    {
      assert Suffix(p.buckets[i], p'.buckets[i]) && Suffix(p'.buckets[i], p''.buckets[i]);
    }
  }

  lemma DropIsSuffix(bucket: seq<Entry>, k: nat)
    requires k <= |bucket|
    ensures Suffix(bucket, bucket[k..])
  {
  }

  /** Players leave from the front of one bucket. */
  lemma FrontLeaves(p: Pool, p': Pool, i: nat, k: nat)
    requires i < |p.buckets| && k <= |p.buckets[i]| && p'.joined == p.joined && p'.left == p.left
    requires p'.buckets == p.buckets[i := p.buckets[i][k..]]
    ensures Shrinks(p, p')
  {
    forall j | 0 <= j < |p.buckets|
      ensures Suffix(p.buckets[j], p'.buckets[j])
    {
      DropIsSuffix(p.buckets[j], if j == i then k else 0);
    }
  }

  lemma PairWithinShrinks(p: Pool, i: nat, now: nat)
    requires i < |p.buckets| && |p.buckets[i]| >= 2
    ensures Shrinks(p, PairWithin(p, i, now)) && |PairWithin(p, i, now).buckets[i]| == |p.buckets[i]| - 2
  {
    FrontLeaves(p, PairWithin(p, i, now), i, 2);
  }

  lemma PairAcrossShrinks(p: Pool, i: nat, j: nat, now: nat)
    requires i < |p.buckets| && j < |p.buckets| && i != j && p.buckets[i] != [] && p.buckets[j] != []
    ensures Shrinks(p, PairAcross(p, i, j, now)) && |PairAcross(p, i, j, now).buckets[i]| == |p.buckets[i]| - 1
  {
    var q := p.(buckets := p.buckets[i := p.buckets[i][1..]]);
    FrontLeaves(p, q, i, 1);
    FrontLeaves(q, PairAcross(p, i, j, now), j, 1);
    ShrinksOn(p, q, PairAcross(p, i, j, now));
  }

  lemma {:induction false} PairAllShrinks(p: Pool, i: nat, now: nat)
    requires i < |p.buckets|
    ensures Shrinks(p, PairAll(p, i, now)) && |PairAll(p, i, now).buckets[i]| <= 1
    decreases |p.buckets[i]|
  {
    if |p.buckets[i]| < 2 {
      FrontLeaves(p, p, i, 0);
    } else {
      PairWithinShrinks(p, i, now);
      PairAllShrinks(PairWithin(p, i, now), i, now);
      ShrinksOn(p, PairWithin(p, i, now), PairAll(p, i, now));
    }
  }

  /** Pairing the players of the bucket off leaves the last one over. */
  predicate LeavesOne(bucket: seq<Entry>) {
    |bucket| >= 3 && |bucket| % 2 == 1
  }

  /** An even bucket is emptied. */
  lemma {:induction false} EvenIsEmptied(p: Pool, i: nat, now: nat)
    requires i < |p.buckets| && |p.buckets[i]| % 2 == 0
    ensures PairAll(p, i, now).buckets[i] == []
    decreases |p.buckets[i]|
  {
    if |p.buckets[i]| >= 2 {
      EvenIsEmptied(PairWithin(p, i, now), i, now);
    }
  }

  /** The front of bucket i has nobody within its window. */
  predicate Lonely(buckets: seq<seq<Entry>>, i: nat, now: nat)
    requires i < |buckets|
  {
    buckets[i] != [] ==> Clear(buckets, i, 1, Window(buckets[i][0], now))
  }

  lemma VisitShrinks(p: Pool, i: nat, now: nat)
    requires i < |p.buckets|
    ensures var p' := Visit(p, i, now);
            Shrinks(p, p') && |p'.buckets[i]| <= 1 && (!LeavesOne(p.buckets[i]) ==> Lonely(p'.buckets, i, now))
  {
    if |p.buckets[i]| >= 2 {
      PairAllShrinks(p, i, now);
      if |p.buckets[i]| % 2 == 0 {
        EvenIsEmptied(p, i, now);
      }
    } else {
      VisitOneShrinks(p, i, now);
    }
  }

  /** The visit of a bucket with one player or none. */
  lemma VisitOneShrinks(p: Pool, i: nat, now: nat)
    requires i < |p.buckets| && |p.buckets[i]| <= 1
    ensures var p' := Visit(p, i, now);
            Shrinks(p, p') && |p'.buckets[i]| <= 1 && Lonely(p'.buckets, i, now)
  {
    FrontLeaves(p, p, i, 0);
    if p.buckets[i] != [] {
      var j := Nearest(p.buckets, i, 1, Window(p.buckets[i][0], now));
      if j.Some? {
        PairAcrossShrinks(p, i, j.value, now);
      }
    }
  }

  /** Once alone in a bucket with nobody in sight, always so: the others only get fewer. */
  lemma StaysLonely(p: Pool, p': Pool, i: nat, now: nat)
    requires Shrinks(p, p') && i < |p.buckets| && |p.buckets[i]| <= 1 && Lonely(p.buckets, i, now)
    ensures |p'.buckets[i]| <= 1 && Lonely(p'.buckets, i, now)
  {
    if p'.buckets[i] != [] {
      forall j | 0 <= j < |p'.buckets| && Occupied(p'.buckets, j)
        ensures Occupied(p.buckets, j)
      {
        assert Suffix(p.buckets[j], p'.buckets[j]);
      }
      assert Suffix(p.buckets[i], p'.buckets[i]);
    }
  }

  lemma {:induction false} SweepShrinks(p: Pool, k: nat, now: nat)
    requires k <= |p.buckets|
    ensures Shrinks(p, Sweep(p, k, now))
    decreases k
  {
    if k > 0 {
      var q := Visit(p, k - 1, now);
      VisitShrinks(p, k - 1, now);
      SweepShrinks(q, k - 1, now);
      ShrinksOn(p, q, Sweep(q, k - 1, now));
    }
  }

  /** The queue as the sweep of the buckets below k finds it when it comes to bucket i. */
  function SweptTo(p: Pool, k: nat, i: nat, now: nat): (q: Pool)
    requires i < k <= |p.buckets|
    ensures |q.buckets| == |p.buckets|
    decreases k
  {
    if i == k - 1 then p else SweptTo(Visit(p, k - 1, now), k - 1, i, now)
  }

  /** What the sweep makes of bucket i, from the visit on. */
  lemma {:induction false} SweepSettles(p: Pool, k: nat, i: nat, now: nat)
    requires i < k <= |p.buckets|
    ensures var p' := Sweep(p, k, now);
            |p'.buckets[i]| <= 1 && (!LeavesOne(SweptTo(p, k, i, now).buckets[i]) ==> Lonely(p'.buckets, i, now))
    decreases k
  {
    var q := Visit(p, k - 1, now);
    VisitShrinks(p, k - 1, now);
    SweepShrinks(q, k - 1, now);
    assert Suffix(q.buckets[i], Sweep(q, k - 1, now).buckets[i]);
    if i < k - 1 {
      SweepSettles(q, k - 1, i, now);
    } else if !LeavesOne(p.buckets[i]) {
      StaysLonely(q, Sweep(q, k - 1, now), i, now);
    }
  }

  // ---------------------------------------------------------------- how far a pass gets

  predicate Thin(p: Pool) {
    forall i :: 0 <= i < |p.buckets| ==> |p.buckets[i]| <= 1
  }

  /** No two waiting players with one inside the other's window. */
  predicate Settled(p: Pool, now: nat) {
    Thin(p) && forall i :: 0 <= i < |p.buckets| ==> Lonely(p.buckets, i, now)
  }

  /** In a settled queue whoever has waited for d buckets has nobody that near, and nobody in the same
      bucket. */
  lemma SettledKeepsApart(p: Pool, now: nat, i: nat, k: nat, j: nat, l: nat, d: nat)
    requires Settled(p, now) && i < |p.buckets| && k < |p.buckets[i]| && j < |p.buckets| && l < |p.buckets[j]|
    requires d == 0 || WaitedFor(p.buckets[i][k], now, d)
    ensures (i == j && k == l) || Apart(i, j) > d
  {
    assert |p.buckets[i]| == 1 && |p.buckets[j]| == 1 && Lonely(p.buckets, i, now);
    assert Occupied(p.buckets, j);
    if d > 0 {
      WindowMeaning(p.buckets[i][0], now, d);
    }
  }

  /** The pass comes to bucket i when it holds an odd number of players, three or more. */
  predicate LeavesOneAt(p: Pool, i: nat, now: nat)
    requires i < |p.buckets|
  {
    LeavesOne(SweptTo(p, |p.buckets|, i, now).buckets[i])
  }

  /** After one pass every bucket holds at most one player, and only the last one of a bucket that is
      odd and holds three or more when the pass comes to it can be left with somebody inside its window;
      so a pass that comes to no such bucket settles the queue. */
  lemma OnePass(p: Pool, now: nat)
    ensures Thin(TryFormMatch(p, now))
    ensures forall i :: 0 <= i < |p.buckets| && !Lonely(TryFormMatch(p, now).buckets, i, now) ==>
              LeavesOneAt(p, i, now) && |p.buckets[i]| >= 3
    ensures (forall i :: 0 <= i < |p.buckets| ==> !LeavesOneAt(p, i, now)) ==> Settled(TryFormMatch(p, now), now)
  {
    SweepShrinks(p, |p.buckets|, now);
    forall i | 0 <= i < |p.buckets|
      ensures |TryFormMatch(p, now).buckets[i]| <= 1
      ensures LeavesOneAt(p, i, now) || Lonely(TryFormMatch(p, now).buckets, i, now)
      ensures LeavesOneAt(p, i, now) ==> |p.buckets[i]| >= 3
    {
      SweepSettles(p, |p.buckets|, i, now);
      SweptToShrinks(p, |p.buckets|, i, now);
      assert Suffix(p.buckets[i], SweptTo(p, |p.buckets|, i, now).buckets[i]);
    }
  }

  lemma {:induction false} SweptToShrinks(p: Pool, k: nat, i: nat, now: nat)
    requires i < k <= |p.buckets|
    ensures Shrinks(p, SweptTo(p, k, i, now))
    decreases k
  {
    if i < k - 1 {
      VisitShrinks(p, k - 1, now);
      SweptToShrinks(Visit(p, k - 1, now), k - 1, i, now);
      ShrinksOn(p, Visit(p, k - 1, now), SweptTo(p, k, i, now));
    }
  }

  lemma {:induction false} SettledSweepIdles(p: Pool, k: nat, now: nat)
    requires k <= |p.buckets| && Settled(p, now)
    ensures Sweep(p, k, now) == p
    decreases k
  {
    if k > 0 {
      assert Lonely(p.buckets, k - 1, now);
      SettledSweepIdles(p, k - 1, now);
    }
  }

  /** A thin queue is settled exactly when a pass changes nothing. */
  lemma SettledIffIdle(p: Pool, now: nat)
    requires Thin(p)
    ensures Settled(TryFormMatch(p, now), now)
    ensures Settled(p, now) <==> TryFormMatch(p, now) == p
  {
    OnePass(p, now);
    if Settled(p, now) {
      SettledSweepIdles(p, |p.buckets|, now);
    }
  }

  /** Two passes at one clock settle the queue, so a third matches nobody. */
  lemma ThirdPassIdles(p: Pool, now: nat)
    ensures var p2 := TryFormMatch(TryFormMatch(p, now), now);
            Settled(p2, now) && TryFormMatch(p2, now) == p2
  {
    OnePass(p, now);
    SettledIffIdle(TryFormMatch(p, now), now);
    SettledIffIdle(TryFormMatch(TryFormMatch(p, now), now), now);
  }

  lemma {:induction false} EmptySweepIdles(p: Pool, j: nat, k: nat, now: nat)
    requires j <= k <= |p.buckets| && forall i :: j <= i < k ==> p.buckets[i] == []
    ensures Sweep(p, k, now) == Sweep(p, j, now)
    decreases k
  {
    if j < k {
      EmptySweepIdles(p, j, k - 1, now);
    }
  }

  /** Three players in bucket i, the last of whom may look at bucket i + 1, and one in bucket i + 1
      who may not look anywhere yet. */
  predicate LeftoverCase(p: Pool, i: nat, now: nat) {
    && i + 1 < |p.buckets| && |p.buckets[i]| == 3 && |p.buckets[i + 1]| == 1
    && (forall j :: 0 <= j < |p.buckets| && j != i && j != i + 1 ==> p.buckets[j] == [])
    && Window(p.buckets[i][2], now) >= 1 && Window(p.buckets[i + 1][0], now) == 0
  }

  /** A pass does not settle every queue: the third player is not tried against the neighbours. */
  lemma LeftoverIsMissed(p: Pool, i: nat, now: nat)
    requires LeftoverCase(p, i, now)
    ensures var p' := TryFormMatch(p, now);
            p'.buckets[i] == [p.buckets[i][2]] && p'.buckets[i + 1] == p.buckets[i + 1] && !Settled(p', now)
  {
    EmptySweepIdles(p, i + 2, |p.buckets|, now);
    var p1 := PairWithin(p, i, now);
    assert p1.buckets[i] == [p.buckets[i][2]];
    assert PairAll(p1, i, now) == p1;
    assert Visit(p, i + 1, now) == p && Visit(p, i, now) == p1;
    EmptySweepIdles(p1, 0, i, now);
    var p' := TryFormMatch(p, now);
    assert p' == p1;
    assert Occupied(p'.buckets, i + 1) && Apart(i, i + 1) == 1;
    assert !Lonely(p'.buckets, i, now);
  }

  /** Four players in bucket i, the last of whom may look two buckets away; one in bucket i + 1 who may
      look at bucket i; one in bucket i + 2 who may not look anywhere yet. */
  predicate EvenCase(p: Pool, i: nat, now: nat) {
    && i + 2 < |p.buckets| && |p.buckets[i]| == 4 && |p.buckets[i + 1]| == |p.buckets[i + 2]| == 1
    && (forall j :: 0 <= j < |p.buckets| && !(i <= j <= i + 2) ==> p.buckets[j] == [])
    && Window(p.buckets[i][3], now) >= 2 && Window(p.buckets[i + 1][0], now) >= 1
    && Window(p.buckets[i + 2][0], now) == 0
  }

  lemma ThreeVisits(p: Pool, p1: Pool, p2: Pool, p3: Pool, i: nat, now: nat)
    requires i + 3 <= |p.buckets| && p1 == Visit(p, i + 2, now)
    requires p2 == Visit(p1, i + 1, now) && p3 == Visit(p2, i, now)
    ensures Sweep(p, i + 3, now) == Sweep(p3, i, now)
  {
    assert Sweep(p, i + 3, now) == Sweep(p1, i + 2, now);
    assert Sweep(p1, i + 2, now) == Sweep(p2, i + 1, now);
  }

  /** The player of bucket i + 1 takes the front of bucket i. */
  lemma NeighbourTakes(p: Pool, i: nat, now: nat)
    requires EvenCase(p, i, now)
    ensures Visit(p, i + 2, now) == p && Visit(p, i + 1, now) == PairAcross(p, i + 1, i, now)
  {
    assert Occupied(p.buckets, i + 1 - 1);
    assert Nearest(p.buckets, i + 1, 1, Window(p.buckets[i + 1][0], now)) == Some(i);
  }

  /** And the other three leave one over. */
  lemma ThreeLeaveOne(p: Pool, i: nat, now: nat)
    requires i < |p.buckets| && |p.buckets[i]| == 3
    ensures Visit(p, i, now) == PairWithin(p, i, now) && PairWithin(p, i, now).buckets[i] == [p.buckets[i][2]]
  {
    var q := PairWithin(p, i, now);
    assert PairAll(q, i, now) == q;
  }

  /** A bucket that is even to begin with can be left over too: a higher one takes a player first. */
  lemma EvenBucketIsMissed(p: Pool, i: nat, now: nat)
    requires EvenCase(p, i, now)
    ensures var p' := TryFormMatch(p, now);
            p'.buckets[i] == [p.buckets[i][3]] && !Lonely(p'.buckets, i, now)
  {
    NeighbourTakes(p, i, now);
    var p1 := PairAcross(p, i + 1, i, now);
    assert p1.buckets[i] == p.buckets[i][1..];
    ThreeLeaveOne(p1, i, now);
    var p2 := PairWithin(p1, i, now);
    EmptySweepIdles(p, i + 3, |p.buckets|, now);
    ThreeVisits(p, p, p1, p2, i, now);
    EmptySweepIdles(p2, 0, i, now);
    assert Occupied(p2.buckets, i + 2) && Apart(i, i + 2) == 2;
  }

  // ---------------------------------------------------------------- runs

  /** A handler on the queue's strand, with the clock it read. */
  datatype Event = Join(user: nat, elo: int, clock: nat) | Leave(user: nat, clock: nat) | Tick(clock: nat)

  ghost function Step(p: Pool, e: Event): Pool
    requires Indexed(p)
  {
    match e
    case Join(user, elo, now) => Enqueue(p, user, elo, now)
    case Leave(user, _) => Cancel(p, user)
    case Tick(now) => TryFormMatch(p, now)
  }

  function Empty(): Pool {
    Pool(seq(NUM_BUCKETS + 1, _ => []), map[], [], [], [])
  }

  lemma {:induction false} NobodyQueued(buckets: seq<seq<Entry>>, e: Entry)
    requires forall i :: 0 <= i < |buckets| ==> buckets[i] == []
    ensures Queued(buckets, e) == 0
  {
    if buckets != [] {
      NobodyQueued(buckets[..|buckets| - 1], e);
    }
  }

  lemma EmptyIsSound()
    ensures Sound(Empty()) && NotAfter(Empty(), 0)
  {
    forall e
      ensures BalancedFor(Empty(), e)
    {
      NobodyQueued(Empty().buckets, e);
    }
  }

  lemma EnqueueBalances(p: Pool, user: nat, elo: int, now: nat, e: Entry)
    requires Indexed(p) && BalancedFor(p, e)
    ensures BalancedFor(Enqueue(p, user, elo, now), e)
  {
    var i := BucketIndex(elo);
    QueuedChanges(p.buckets, i, p.buckets[i] + [Entry(user, elo, now)], e);
  }

  lemma CancelBalances(p: Pool, user: nat, e: Entry)
    requires Indexed(p) && BalancedFor(p, e)
    ensures BalancedFor(Cancel(p, user), e)
  {
    if user in p.lookup {
      EraseBalances(p, p.lookup[user], Find(p.buckets[p.lookup[user]], user), e);
    }
  }

  /** Every handler keeps the index, the balance and the windows. */
  lemma StepIsSound(p: Pool, e: Event)
    requires Sound(p) && NotAfter(p, e.clock)
    ensures Sound(Step(p, e)) && NotAfter(Step(p, e), e.clock)
  {
    match e
    case Join(user, elo, now) =>
      EnqueueKeepsIndex(p, user, elo, now);
      forall x
        ensures BalancedFor(Step(p, e), x)
      {
        EnqueueBalances(p, user, elo, now, x);
      }
    case Leave(user, _) =>
      CancelKeepsIndex(p, user);
      forall x
        ensures BalancedFor(Step(p, e), x)
      {
        CancelBalances(p, user, x);
      }
    case Tick(now) =>
      SweepKeeps(p, |p.buckets|, now);
      SweepShrinks(p, |p.buckets|, now);
      forall i, k | 0 <= i < |p.buckets| && 0 <= k < |TryFormMatch(p, now).buckets[i]|
        ensures TryFormMatch(p, now).buckets[i][k].at <= now
      {
        assert Suffix(p.buckets[i], TryFormMatch(p, now).buckets[i]);
      }
  }

  /** The clock never runs backwards. */
  predicate Steady(now: nat, events: seq<Event>)
    decreases |events|
  {
    events == [] || (now <= events[0].clock && Steady(events[0].clock, events[1..]))
  }

  ghost function After(p: Pool, now: nat, events: seq<Event>): (p': Pool)
    requires Sound(p) && NotAfter(p, now) && Steady(now, events)
    ensures Sound(p')
    decreases |events|
  {
    if events == [] then p
    else
      StepIsSound(p, events[0]);
      After(Step(p, events[0]), events[0].clock, events[1..])
  }

  /** After any sequence of joins, cancels and ticks: index and buckets agree, every entry that was
      queued is in exactly one place, and in every pairing the searching player has waited fifteen seconds
      for each bucket the two are apart. */
  lemma RunIsSound(events: seq<Event>)
    requires Steady(0, events)
    ensures Sound(Empty()) && NotAfter(Empty(), 0) && Sound(After(Empty(), 0, events))
    ensures var p := After(Empty(), 0, events); forall k :: 0 <= k < |p.paired| ==> WaitedEnough(p.paired[k])
  {
    EmptyIsSound();
    var p := After(Empty(), 0, events);
    forall k | 0 <= k < |p.paired|
      ensures WaitedEnough(p.paired[k])
    {
      InWindowMeaning(p.paired[k]);
    }
  }

  /** The leftover case is reached when three players join bucket i, and one joins bucket i + 1
      fifteen seconds later. */
  lemma LeftoverCaseIsReached(p: Pool, a: nat, b: nat, c: nat, d: nat, elo: int)
    requires p == Empty() && a != b && a != c && a != d && b != c && b != d && c != d
    requires ELO_FLOOR <= elo < MAX_ELO_BUCKET
    ensures var p3 := Enqueue(Enqueue(Enqueue(p, a, elo, 0), b, elo, 0), c, elo, 0);
            LeftoverCase(Enqueue(p3, d, elo + BUCKET_SIZE, INCREMENT), BucketIndex(elo), INCREMENT)
  {
    var i := BucketIndex(elo);
    BucketBounds(elo);
    assert BucketIndex(elo + BUCKET_SIZE) == i + 1;
    var p1 := Enqueue(p, a, elo, 0);
    assert p1.buckets[i] == [Entry(a, elo, 0)];
    var p2 := Enqueue(p1, b, elo, 0);
    assert p2.buckets[i] == [Entry(a, elo, 0), Entry(b, elo, 0)];
    var p3 := Enqueue(p2, c, elo, 0);
    assert p3.buckets[i] == [Entry(a, elo, 0), Entry(b, elo, 0), Entry(c, elo, 0)];
    var p4 := Enqueue(p3, d, elo + BUCKET_SIZE, INCREMENT);
    assert p4.buckets[i + 1] == [Entry(d, elo + BUCKET_SIZE, INCREMENT)];
  }

  /** A first join appends the player to its bucket. */
  lemma JoinAppends(p: Pool, user: nat, elo: int, now: nat, i: nat)
    requires |p.buckets| == NUM_BUCKETS + 1 && user !in p.lookup && BucketIndex(elo) == i
    ensures var q := Enqueue(p, user, elo, now);
            && q.buckets == p.buckets[i := p.buckets[i] + [Entry(user, elo, now)]]
            && q.lookup == p.lookup[user := i]
  {
  }

  /** Players of one rating joining at time 0. */
  function JoinAll(p: Pool, users: seq<nat>, elo: int): (q: Pool)
    requires |p.buckets| == NUM_BUCKETS + 1
    ensures |q.buckets| == NUM_BUCKETS + 1
  {
    if users == [] then p else Enqueue(JoinAll(p, users[..|users| - 1], elo), users[|users| - 1], elo, 0)
  }

  function Entries(users: seq<nat>, elo: int): (r: seq<Entry>)
    ensures |r| == |users|
  {
    seq(|users|, k requires 0 <= k < |users| => Entry(users[k], elo, 0))
  }

  lemma {:induction false} AllJoin(p: Pool, users: seq<nat>, elo: int, i: nat)
    requires p == Empty() && BucketIndex(elo) == i
    requires forall k, l :: 0 <= k < l < |users| ==> users[k] != users[l]
    ensures JoinAll(p, users, elo).buckets == p.buckets[i := Entries(users, elo)]
    ensures forall u :: u in JoinAll(p, users, elo).lookup <==> u in users
  {
    if users == [] {
      assert p.buckets[i := Entries(users, elo)] == p.buckets;
    } else {
      var n := |users| - 1;
      AllJoin(p, users[..n], elo, i);
      JoinAppends(JoinAll(p, users[..n], elo), users[n], elo, 0, i);
      assert users == users[..n] + [users[n]];
      assert Entries(users, elo) == Entries(users[..n], elo) + [Entry(users[n], elo, 0)];
    }
  }

  /** The even case is reached when four players join bucket i and one bucket i + 1, and thirty seconds
      later one joins bucket i + 2. */
  lemma EvenCaseIsReached(p: Pool, users: seq<nat>, e: nat, f: nat, elo: int)
    requires p == Empty() && |users| == 4 && e !in users && f !in users && e != f
    requires forall k, l :: 0 <= k < l < |users| ==> users[k] != users[l]
    requires ELO_FLOOR <= elo && elo + BUCKET_SIZE < MAX_ELO_BUCKET
    ensures var q := Enqueue(JoinAll(p, users, elo), e, elo + BUCKET_SIZE, 0);
            EvenCase(Enqueue(q, f, elo + 2 * BUCKET_SIZE, 2 * INCREMENT), BucketIndex(elo), 2 * INCREMENT)
  {
    var i := BucketIndex(elo);
    BucketBounds(elo);
    assert BucketIndex(elo + BUCKET_SIZE) == i + 1 && BucketIndex(elo + 2 * BUCKET_SIZE) == i + 2;
    AllJoin(p, users, elo, i);
    var p4 := JoinAll(p, users, elo);
    JoinAppends(p4, e, elo + BUCKET_SIZE, 0, i + 1);
    var p5 := Enqueue(p4, e, elo + BUCKET_SIZE, 0);
    JoinAppends(p5, f, elo + 2 * BUCKET_SIZE, 2 * INCREMENT, i + 2);
  }
}
