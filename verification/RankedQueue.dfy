/** The ranked strategy as the source keeps it: an object whose handlers edit the buckets and the index
    in place. */
module RankedQueues {
  import opened Basics
  import opened Ranked

  class RankedTwoPlayerStrategy {
    var buckets: seq<seq<Entry>>
    var lookup: map<nat, nat>
    /** The matches handed to the callback. */
    var paired: seq<Pairing>
    ghost var joined: seq<Entry>
    ghost var left: seq<Entry>

    ghost function State(): Pool
      reads this
    {
      Pool(buckets, lookup, paired, joined, left)
    }

    constructor ()
      ensures State() == Empty()
    {
      buckets, lookup, paired := seq(NUM_BUCKETS + 1, _ => []), map[], [];
      joined, left := [], [];
    }

    /** Where a list iterator points: the position of the player's entry. */
    method Locate(bucket: seq<Entry>, user: nat) returns (k: nat)
      requires Waiting(bucket, user)
      ensures k == Find(bucket, user)
    {
      k := 0;
      while bucket[k].user != user
        invariant k < |bucket| && Waiting(bucket[k..], user) && k + Find(bucket[k..], user) == Find(bucket, user)
        decreases |bucket| - k
      {
        assert bucket[k..][1..] == bucket[k + 1..];
        k := k + 1;
      }
    }

    method Enqueue(user: nat, elo: int, now: nat)
      requires Indexed(State()) && NotAfter(State(), now)
      modifies this
      ensures State() == Ranked.Enqueue(old(State()), user, elo, now)
      ensures Indexed(State()) && NotAfter(State(), now)
    {
      EnqueueKeepsIndex(State(), user, elo, now);
      if user !in lookup {
        var i, e := BucketIndex(elo), Entry(user, elo, now);
        buckets := buckets[i := buckets[i] + [e]];
        lookup := lookup[user := i];
        joined := joined + [e];
      }
    }

    method Cancel(user: nat)
      requires Indexed(State())
      modifies this
      ensures State() == Ranked.Cancel(old(State()), user) && Indexed(State())
    {
      CancelKeepsIndex(State(), user);
      if user in lookup {
        var i := lookup[user];
        var k := Locate(buckets[i], user);
        left := left + [buckets[i][k]];
        buckets := buckets[i := Erase(buckets[i], k)];
        lookup := lookup - {user};
      }
    }

    /** The second player is erased first.  The two stand at the fronts of buckets i and j, or are the
        first two of bucket i when i == j. */
    method MatchAndRemove(first: Entry, second: Entry, now: nat, ghost i: nat, ghost j: nat)
      requires Indexed(State()) && i < |buckets| && j < |buckets| && buckets[i] != [] && buckets[j] != []
      requires (i == j ==> |buckets[i]| >= 2) && first == buckets[i][0] && second == buckets[j][if i == j then 1 else 0]
      modifies this
      ensures PairsUp(old(State()), i, j, now, State()) && Indexed(State())
    {
      ghost var p := State();
      FrontsAreFound(p, i, j);
      var l := Locate(buckets[lookup[second.user]], second.user);
      buckets := buckets[lookup[second.user] := Erase(buckets[lookup[second.user]], l)];
      var k := Locate(buckets[lookup[first.user]], first.user);
      buckets := buckets[lookup[first.user] := Erase(buckets[lookup[first.user]], k)];
      lookup := lookup - {first.user} - {second.user};
      paired := paired + [Pairing(first, second, now)];
      PairingKeepsIndex(p, i, j, now, State());
    }

    /** The same-bucket loop. */
    method PairBucket(i: nat, now: nat)
      requires Indexed(State()) && i < |buckets|
      modifies this
      ensures State() == PairAll(old(State()), i, now) && Indexed(State())
    {
      while |buckets[i]| >= 2
        invariant Indexed(State()) && i < |buckets| && PairAll(State(), i, now) == PairAll(old(State()), i, now)
        decreases |buckets[i]|
      {
        PairWithinPairsUp(State(), i, now);
        MatchAndRemove(buckets[i][0], buckets[i][1], now, i, i);
      }
    }

    /** The search of the neighbouring buckets, the lower one first at each distance. */
    method Neighbour(i: nat, delta: nat) returns (j: Option<nat>)
      requires i < |buckets| == NUM_BUCKETS + 1
      ensures j == Nearest(buckets, i, 1, delta)
    {
      var radius := 1;
      while radius <= delta
        invariant 1 <= radius <= delta + 1 && Nearest(buckets, i, radius, delta) == Nearest(buckets, i, 1, delta)
      {
        if i >= radius && buckets[i - radius] != [] {
          return Some(i - radius);
        }
        if i + radius <= NUM_BUCKETS && buckets[i + radius] != [] {
          return Some(i + radius);
        }
        radius := radius + 1;
      }
      j := None;
    }

    method SearchAround(i: nat, now: nat)
      requires Indexed(State()) && i < |buckets| && |buckets[i]| == 1
      modifies this
      ensures State() == Visit(old(State()), i, now) && Indexed(State())
    {
      var delta := Window(buckets[i][0], now);
      if delta == 0 {
        return;
      }
      var j := Neighbour(i, delta);
      if j.Some? {
        PairAcrossPairsUp(State(), i, j.value, now);
        MatchAndRemove(buckets[i][0], buckets[j.value][0], now, i, j.value);
      }
    }

    method TryFormMatch(now: nat)
      requires Indexed(State())
      modifies this
      ensures State() == Ranked.TryFormMatch(old(State()), now) && Indexed(State())
    {
      for i := |buckets| downto 0
        invariant Indexed(State()) && Sweep(State(), i, now) == Sweep(old(State()), |old(buckets)|, now)
      {
        if |buckets[i]| >= 2 {
          PairBucket(i, now);
        } else if buckets[i] != [] {
          SearchAround(i, now);
        }
      }
    }
  }

  lemma FrontIsFound(p: Pool, i: nat)
    requires Indexed(p) && i < |p.buckets| && p.buckets[i] != []
    ensures var a := p.buckets[i][0].user;
            a in p.lookup && p.lookup[a] == i && Waiting(p.buckets[i], a) && Find(p.buckets[i], a) == 0
  {
    assert Agrees(p.lookup, i, p.buckets[i]);
  }

  lemma SecondIsFound(p: Pool, i: nat)
    requires Indexed(p) && i < |p.buckets| && |p.buckets[i]| >= 2
    ensures var bucket := p.buckets[i];
            && bucket[1].user in p.lookup && p.lookup[bucket[1].user] == i && bucket[1].user != bucket[0].user
            && Waiting(bucket, bucket[1].user) && Find(bucket, bucket[1].user) == 1
            && Erase(bucket, 1)[0] == bucket[0] && Erase(Erase(bucket, 1), 0) == Erase(Erase(bucket, 0), 0)
  {
    assert Agrees(p.lookup, i, p.buckets[i]) && Orderly(p.buckets[i]);
  }

  /** The index and the positions lead to the two fronts, also after the second has been erased. */
  lemma FrontsAreFound(p: Pool, i: nat, j: nat)
    requires Indexed(p) && i < |p.buckets| && j < |p.buckets| && p.buckets[i] != [] && p.buckets[j] != []
    requires i == j ==> |p.buckets[i]| >= 2
    ensures var l := if i == j then 1 else 0;
            var a, b := p.buckets[i][0].user, p.buckets[j][l].user;
            var bs := p.buckets[j := Erase(p.buckets[j], l)];
            && a != b && a in p.lookup && p.lookup[a] == i && b in p.lookup && p.lookup[b] == j
            && Waiting(p.buckets[j], b) && Find(p.buckets[j], b) == l && Waiting(bs[i], a) && Find(bs[i], a) == 0
            && bs[i := Erase(bs[i], 0)] == FrontsOut(p, i, j).buckets
  {
    FrontIsFound(p, i);
    if i == j {
      SecondIsFound(p, i);
    } else {
      FrontIsFound(p, j);
    }
  }
}
