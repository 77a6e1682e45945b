/** What handle_elimination does to the board. */
module Eliminations {
  import opened Basics
  import opened Boards
  import opened Commands

  /** The IDs handle_elimination walks: the placed prefix of the player's tank list. */
  function PlacedIds(b: Board, p: nat): seq<u8>
    requires b.Slotted() && p < |b.players|
  {
    assert b.GoodPlayer(p);
    b.players[p].tankIds[..b.players[p].placed]
  }

  lemma PlacedIdsAreOwn(b: Board, p: nat)
    requires b.Slotted() && p < |b.players|
    ensures KillList(b, PlacedIds(b, p))
    ensures forall k :: 0 <= k < |PlacedIds(b, p)| ==> b.tanks[PlacedIds(b, p)[k]].owner == p
  {
    var ids := PlacedIds(b, p);
    assert b.GoodPlayer(p);
    forall k | 0 <= k < |ids|
      ensures ids[k] < |b.tanks| && b.InBounds(b.tanks[ids[k]].pos) && b.tanks[ids[k]].owner == p
    {
      assert ids[k] == Slot(b.numTanks, p, k);
      assert b.GoodTank(ids[k]);
    }
  }

  function Eliminate(b: Board, p: nat): (b': Board)
    requires b.Slotted() && p < |b.players|
    ensures b'.Sized() && b'.players == b.players && b'.numTanks == b.numTanks
  {
    PlacedIdsAreOwn(b, p);
    KillListed(b, PlacedIds(b, p))
  }

  /** A live tank of somebody else stands where one of p's tanks lies. */
  predicate Overrun(b: Board, p: nat)
    requires b.Slotted() && p < |b.players|
  {
    exists i, k :: 0 <= i < |b.tanks| && 0 <= k < |PlacedIds(b, p)| && b.tanks[i].health > 0
                   && i !in PlacedIds(b, p) && PlacedIds(b, p)[k] < |b.tanks|
                   && b.tanks[i].pos == b.tanks[PlacedIds(b, p)[k]].pos
  }

  /** An elimination always keeps "every occupied cell names a live tank standing there", the slices
      and the map, and leaves every other tank as it was. */
  lemma EliminateKeeps(b: Board, p: nat)
    requires Ready(b) && p < |b.players|
    ensures var b' := Eliminate(b, p);
            Ready(b') && SameMap(b, b') && b'.players == b.players
            && forall i :: 0 <= i < |b.tanks| ==>
                 b'.tanks[i] == if i in PlacedIds(b, p) then b.tanks[i].(health := 0) else b.tanks[i]
  {
    PlacedIdsAreOwn(b, p);
    var ids := PlacedIds(b, p);
    var b' := Eliminate(b, p);
    forall i | 0 <= i < |b.tanks|
      ensures b'.GoodTank(i)
    {
      assert b.GoodTank(i);
    }
    forall q | 0 <= q < |b.players|
      ensures b'.GoodPlayer(q)
    {
      assert b.GoodPlayer(q);
    }
    forall c | 0 <= c < |b.cells| && b.cells[c].occupant in ids
      ensures LiesOn(b, ids, c)
    {
      assert b.Idx(b.tanks[b.cells[c].occupant].pos) == c;
    }
  }

  lemma StillAnchored(b: Board, p: nat, i: nat)
    requires b.Consistent() && b.Slotted() && p < |b.players| && i < |b.tanks| && b.tanks[i].health > 0
    requires i !in PlacedIds(b, p)
    ensures Overrun(b, p) || Eliminate(b, p).At(b.tanks[i].pos) == b.At(b.tanks[i].pos)
  {
    PlacedIdsAreOwn(b, p);
    var ids := PlacedIds(b, p);
    var c := b.Idx(b.tanks[i].pos);
    if LiesOn(b, ids, c) {
      var k :| 0 <= k < |ids| && b.Idx(b.tanks[ids[k]].pos) == c;
      IdxInjective(b, b.tanks[i].pos, b.tanks[ids[k]].pos);
    }
  }

  lemma OverrunBreaksAnchor(b: Board, p: nat)
    requires b.Consistent() && b.Slotted() && p < |b.players| && Overrun(b, p)
    ensures !Eliminate(b, p).Anchored()
  {
    PlacedIdsAreOwn(b, p);
    var ids := PlacedIds(b, p);
    var i, k :| 0 <= i < |b.tanks| && 0 <= k < |ids| && b.tanks[i].health > 0 && i !in ids
                && ids[k] < |b.tanks| && b.tanks[i].pos == b.tanks[ids[k]].pos;
    assert LiesOn(b, ids, b.Idx(b.tanks[i].pos));
    assert Eliminate(b, p).tanks[i] == b.tanks[i];
  }

  /** It keeps the converse, "every live tank is named by its cell", exactly when no live tank of
      another player had moved onto a cell where one of the player's tanks lies. */
  lemma EliminateAnchoredIff(b: Board, p: nat)
    requires b.Consistent() && b.Slotted() && p < |b.players|
    ensures Eliminate(b, p).Anchored() <==> !Overrun(b, p)
  {
    if Overrun(b, p) {
      OverrunBreaksAnchor(b, p);
    } else {
      PlacedIdsAreOwn(b, p);
      var b' := Eliminate(b, p);
      forall i | 0 <= i < |b.tanks| && b'.tanks[i].health > 0
        ensures b'.tanks[i] == b.tanks[i] && b'.At(b'.tanks[i].pos) == b.At(b.tanks[i].pos)
      {
        StillAnchored(b, p, i);
      }
    }
  }

  /** After its elimination a player has no live tank, and nobody else's count has changed. */
  lemma EliminateCounts(b: Board, p: nat, q: nat)
    requires Ready(b) && p < |b.players| && q < |b.players|
    ensures Eliminate(b, p).Slotted()
    ensures LiveTanks(Eliminate(b, p), q) == if q == p then 0 else LiveTanks(b, q)
  {
    EliminateKeeps(b, p);
    PlacedIdsAreOwn(b, p);
    var b' := Eliminate(b, p);
    assert b.GoodPlayer(q) && b'.GoodPlayer(q) && b.GoodPlayer(p);
    var qs := b.players[q].tankIds;
    if q == p {
      forall j | 0 <= j < |qs| && qs[j] != NOTHING
        ensures b'.tanks[qs[j]].health == 0
      {
        assert j < b.players[p].placed;
        assert qs[j] == PlacedIds(b, p)[j];
      }
    } else {
      forall j | 0 <= j < |qs| && qs[j] != NOTHING
        ensures b'.tanks[qs[j]] == b.tanks[qs[j]]
      {
        assert qs[j] == Slot(b.numTanks, q, j);
        assert b.tanks[qs[j]].owner == q;
      }
      SameCount(b.tanks, b'.tanks, qs, b.numTanks);
    }
  }

  lemma NothingLives(b: Board, p: nat, k: nat)
    requires b.Slotted() && p < |b.players| && LiveTanks(b, p) == 0 && k < |PlacedIds(b, p)|
    ensures PlacedIds(b, p)[k] < |b.tanks| && b.tanks[PlacedIds(b, p)[k]].health == 0
  {
    PlacedIdsAreOwn(b, p);
    assert b.GoodPlayer(p);
    assert b.players[p].tankIds[k] == PlacedIds(b, p)[k];
  }

  /** Somebody standing where a dead player's tank lies overruns that player. */
  lemma OccupantOverruns(b: Board, p: nat, k: nat)
    requires b.Consistent() && b.Slotted() && p < |b.players| && LiveTanks(b, p) == 0
    requires k < |PlacedIds(b, p)| && KillList(b, PlacedIds(b, p))
    requires b.At(b.tanks[PlacedIds(b, p)[k]].pos).occupant != NOTHING
    ensures Overrun(b, p)
  {
    var ids := PlacedIds(b, p);
    var c := b.Idx(b.tanks[ids[k]].pos);
    var i := b.cells[c].occupant;
    IdxInjective(b, b.tanks[i].pos, b.tanks[ids[k]].pos);
    forall j | 0 <= j < |ids|
      ensures ids[j] != i
    {
      NothingLives(b, p, j);
    }
  }

  /** An elimination leaves the board alone exactly when the player has no live tank and no live tank
      stands where one of the player's tanks lies. */
  lemma EliminateIdleIff(b: Board, p: nat)
    requires b.Consistent() && b.Slotted() && p < |b.players|
    ensures Eliminate(b, p) == b <==> LiveTanks(b, p) == 0 && !Overrun(b, p)
  {
    EliminateCounts(b, p, p);
    EliminateAnchoredIff(b, p);
    if LiveTanks(b, p) == 0 && !Overrun(b, p) {
      ClearedIsSame(b, p);
    }
  }

  lemma ClearedIsSame(b: Board, p: nat)
    requires b.Consistent() && b.Slotted() && p < |b.players| && LiveTanks(b, p) == 0 && !Overrun(b, p)
    ensures Eliminate(b, p) == b
  {
    PlacedIdsAreOwn(b, p);
    var ids := PlacedIds(b, p);
    var b' := Eliminate(b, p);
    forall i | 0 <= i < |b.tanks| && i in ids
      ensures b.tanks[i].health == 0
    {
      var k :| 0 <= k < |ids| && ids[k] == i;
      NothingLives(b, p, k);
    }
    forall c | 0 <= c < |b.cells| && LiesOn(b, ids, c)
      ensures b.cells[c].occupant == NOTHING
    {
      var k :| 0 <= k < |ids| && b.Idx(b.tanks[ids[k]].pos) == c;
      if b.cells[c].occupant != NOTHING {
        OccupantOverruns(b, p, k);
      }
    }
    assert b'.tanks == b.tanks && b'.cells == b.cells;
  }

  lemma {:induction false} SameCount(ts: seq<Tank>, ts': seq<Tank>, ids: seq<u8>, k: nat)
    requires k <= |ids|
    requires forall j :: 0 <= j < |ids| && ids[j] != NOTHING ==>
               ids[j] < |ts| && ids[j] < |ts'| && (ts[ids[j]].health > 0 <==> ts'[ids[j]].health > 0)
    ensures LiveAmong(ts, ids, k) == LiveAmong(ts', ids, k)
  {
    if k > 0 {
      SameCount(ts, ts', ids, k - 1);
    }
  }
}
