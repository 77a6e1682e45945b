/** Ranks follow the order of elimination: a rank once given stays, whoever drops out later ranks
    higher, and players who drop out at once are ranked by their seats. */
module Rankings {
  import opened Basics
  import opened Boards
  import opened Commands
  import opened Matches
  import opened Ledger
  import opened Elos
  import opened ZeroSums
  import opened Upsets

  /** From m to m' a dead player keeps the rank, and one that drops out gets a rank above all given before. */
  predicate RankKept(m: Match, m': Match, p: nat)
    requires p < |m.alive| == |m.order| == |m'.alive| == |m'.order|
  {
    && (!m.alive[p] ==> !m'.alive[p] && m'.order[p] == m.order[p])
    && (m.alive[p] && !m'.alive[p] ==> m.elim <= m'.order[p])
  }

  predicate RanksKept(m: Match, m': Match) {
    && |m.alive| == |m.order| == |m'.alive| == |m'.order| && m.elim <= m'.elim
    && forall p :: 0 <= p < |m.alive| ==> RankKept(m, m', p)
  }

  lemma KeptOn(m: Match, m1: Match, m2: Match)
    requires RanksKept(m, m1) && RanksKept(m1, m2)
    ensures RanksKept(m, m2)
  {
    forall p | 0 <= p < |m.alive|
      ensures RankKept(m, m2, p)
    {
      assert RankKept(m, m1, p) && RankKept(m1, m2, p);
    }
  }

  /** Nothing the ranking is made of changes. */
  predicate SameRanks(m: Match, m': Match) {
    m'.alive == m.alive && m'.order == m.order && m'.elim == m.elim
  }

  lemma SameThenKept(m: Match, m1: Match, m2: Match, m3: Match)
    requires SameRanks(m, m1) && RanksKept(m1, m2) && SameRanks(m2, m3)
    ensures RanksKept(m, m3)
  {
    forall p | 0 <= p < |m.alive|
      ensures RankKept(m, m3, p)
    {
      assert RankKept(m1, m2, p);
    }
  }

  // ---------------------------------------------------------------- compute_all_views

  lemma ViewKeeps(m: Match, i: nat)
    requires m.Shaped() && i < |m.alive|
    ensures RanksKept(m, ViewOf(m, i))
  {
  }

  lemma {:induction false} ViewsKeepRanks(m: Match, i: nat)
    requires m.Shaped()
    ensures RanksKept(m, Views(m, i))
    decreases |m.alive| - i
  {
    if i < |m.alive| {
      ViewKeeps(m, i);
      ViewsKeepRanks(ViewOf(m, i), i + 1);
      KeptOn(m, ViewOf(m, i), Views(m, i));
    }
  }

  /** Both drop out between m and m'. */
  predicate BothFall(m: Match, m': Match, p: nat, q: nat) {
    p < |m.alive| == |m'.alive| && q < |m.alive| && m.alive[p] && m.alive[q] && !m'.alive[p] && !m'.alive[q]
  }

  lemma {:induction false} ViewsLeaveBelow(m: Match, i: nat, p: nat)
    requires m.Shaped() && p < i && p < |m.alive|
    ensures Views(m, i).alive[p] == m.alive[p]
    decreases |m.alive| - i
  {
    if i < |m.alive| {
      ViewsLeaveBelow(ViewOf(m, i), i + 1, p);
    }
  }

  /** Player i drops out at its own turn of the loop, and q later. */
  lemma FirstOfTwo(m: Match, i: nat, q: nat)
    requires m.Shaped() && i < q && i < |m.alive| && BothFall(m, Views(ViewOf(m, i), i + 1), i, q)
    ensures m.elim <= Views(ViewOf(m, i), i + 1).order[i] < Views(ViewOf(m, i), i + 1).order[q]
  {
    var m1 := ViewOf(m, i);
    ViewsLeaveBelow(m1, i + 1, i);
    assert m1 == Fall(m, i);
    ViewsKeepRanks(m1, i + 1);
    assert RankKept(m1, Views(m1, i + 1), i) && RankKept(m1, Views(m1, i + 1), q);
  }

  /** Of two players found without a live tank at once, the one in the lower seat ranks lower. */
  lemma {:induction false} ViewsRankBySeat(m: Match, i: nat, p: nat, q: nat)
    requires m.Shaped() && p < q && BothFall(m, Views(m, i), p, q)
    ensures m.elim <= Views(m, i).order[p] < Views(m, i).order[q]
    decreases |m.alive| - i
  {
    if i < |m.alive| {
      if p < i {
        ViewsLeaveBelow(m, i, p);
      } else if p > i {
        ViewsRankBySeat(ViewOf(m, i), i + 1, p, q);
      } else {
        FirstOfTwo(m, i, q);
      }
    }
  }

  // ---------------------------------------------------------------- handlers

  lemma FallKeeps(m: Match, p: nat)
    requires p < |m.alive| == |m.order| && m.alive[p]
    ensures RanksKept(m, Fall(m, p)) && Fall(m, p).order[p] == m.elim && !Fall(m, p).alive[p]
  {
  }

  lemma RemoveKeepsRanks(m: Match, p: nat)
    requires m.Shaped() && p < |m.alive| && m.alive[p]
    ensures RanksKept(m, Remove(m, p)) && Remove(m, p).order[p] == m.elim && !Remove(m, p).alive[p]
  {
    FallKeeps(m, p);
  }

  lemma RemovedThenViewed(m: Match, m1: Match, p: nat)
    requires m1.Shaped() && RanksKept(m, m1) && p < |m1.alive| && !m1.alive[p]
    ensures RanksKept(m, Views(m1, 0)) && Views(m1, 0).order[p] == m1.order[p]
  {
    ViewsKeepRanks(m1, 0);
    KeptOn(m, m1, Views(m1, 0));
    assert RankKept(m1, Views(m1, 0), p);
  }

  lemma EliminationRanks(m: Match, p: nat)
    requires m.Shaped() && p < |m.alive| && m.alive[p]
    ensures SameRanks(Views(Remove(m, p), 0), HandleElimination(m, p))
  {
  }

  /** The eliminated player is ranked first, and those who are found without a tank after it. */
  lemma EliminationKeepsRanks(m: Match, p: nat, m': Match)
    requires m.Shaped() && p < |m.alive| && m' == HandleElimination(m, p)
    ensures RanksKept(m, m') && (m.alive[p] ==> m'.order[p] == m.elim)
  {
    if m.alive[p] {
      RemoveKeepsRanks(m, p);
      RemovedThenViewed(m, Remove(m, p), p);
      EliminationRanks(m, p);
      SameThenKept(m, m, Views(Remove(m, p), 0), m');
    }
  }

  lemma RecordRanks(m: Match, c: CommandHead, b: Board)
    requires m.Shaped() && Ready(b) && SameMap(m.board, b)
    ensures SameRanks(m, Record(m, c, b))
  {
  }

  lemma AcceptKeepsRanks(m: Match, c: CommandHead)
    requires m.Shaped()
    ensures RanksKept(m, Accept(m, c))
  {
    match ServerApply(m.board, m.phase == Setup, c)
    case Applied(b, _) =>
      ServerKeepsBoard(m.board, m.phase == Setup, c);
      var m1 := Record(m, c, b);
      RecordRanks(m, c, b);
      ViewsKeepRanks(m1, 0);
      SameThenKept(m, m1, Views(m1, 0), Accept(m, c));
    case _ =>
  }

  lemma ArrivalKeepsRanks(m: Match, t: nat)
    requires m.Shaped()
    ensures RanksKept(m, MoveArrived(m, t))
  {
    if t == m.turnId && !m.claimed && m.phase != Concluded && m.queues[m.cur] != [] {
      var i := Top(m.queues[m.cur]);
      var m1 := m.(claimed := true, queues := m.queues[m.cur := Without(m.queues[m.cur], i)]);
      AcceptKeepsRanks(m1, m.queues[m.cur][i].head);
      SameThenKept(m, m1, MoveArrived(m, t), MoveArrived(m, t));
    }
  }

  lemma NewTurnKeepsRanks(m: Match)
    requires m.Shaped() && m.pending > 0
    ensures RanksKept(m, NewTurn(m))
  {
    if SetupOver(m) {
      var m1 := m.(pending := m.pending - 1, turnId := m.turnId + 1, claimed := false,
                   phase := Play, cur := 0, fuel := TURN_PLAYER_FUEL);
      ViewsKeepRanks(m1, 0);
      SameThenKept(m, m1, NewTurn(m), NewTurn(m));
    }
  }

  lemma OpeningKeepsRanks(m: Match)
    requires m.Shaped() && m.pending > 0
    ensures RanksKept(NewTurn(m), StartTurn(m))
  {
    var m1 := NewTurn(m);
    if m1.remaining >= 2 && m1.alive[m1.cur] {
      var m2 := m1.(armed := Some((m1.cur, m1.turnId)));
      ArrivalKeepsRanks(m2, m2.turnId);
      SameThenKept(m1, m2, StartTurn(m), StartTurn(m));
    } else if m1.remaining >= 2 {
      var m2 := m1.(cur := m1.Next());
      ViewsKeepRanks(m2, 0);
      SameThenKept(m1, m2, Views(m2, 0), StartTurn(m));
    }
  }

  lemma StartKeepsRanks(m: Match)
    requires m.Shaped() && m.pending > 0
    ensures RanksKept(m, StartTurn(m))
  {
    NewTurnKeepsRanks(m);
    OpeningKeepsRanks(m);
    KeptOn(m, NewTurn(m), StartTurn(m));
  }

  /** No handler takes a rank back, and whoever it drops ranks above everybody dropped before. */
  lemma StepKeepsRanks(m: Match, e: Event)
    requires m.Shaped() && Enabled(m, e)
    ensures RanksKept(m, Step(m, e))
  {
    if !m.corrupt {
      match e
      case RunTurn => StartKeepsRanks(m);
      case Deliver(p, c, t) =>
        if p < |m.alive| && m.phase != Concluded && t == m.turnId && |m.queues[p]| < MAX_QUEUE_SIZE {
          var m1 := m.(queues := m.queues[p := m.queues[p] + [c.(head := c.head.(sender := p))]]);
          ArrivalKeepsRanks(m1, t);
          SameThenKept(m, m1, MoveArrived(m1, t), MoveArrived(m1, t));
        }
      case TimerFires(t, expired) =>
        if t == m.turnId && !m.claimed && expired {
          var m1 := m.(claimed := true);
          EliminationKeepsRanks(m1, m.cur, Step(m, e));
          SameThenKept(m, m1, Step(m, e), Step(m, e));
        }
      case Forfeit(p) =>
        if p < |m.alive| && m.phase != Concluded {
          EliminationKeepsRanks(m, p, Step(m, e));
        }
      case Sync(p) =>
    }
  }

  // ---------------------------------------------------------------- runs

  lemma {:induction false} RunKeepsRanks(m: Match, events: seq<Event>)
    requires Sane(m) && CanRun(m, events)
    ensures RanksKept(m, After(m, events))
    decreases |events|
  {
    if events != [] {
      StepIsSane(m, events[0]);
      StepKeepsRanks(m, events[0]);
      RunKeepsRanks(Step(m, events[0]), events[1..]);
      KeptOn(m, Step(m, events[0]), After(m, events));
    }
  }

  lemma {:induction false} CountSome(alive: seq<bool>, q: nat)
    requires q < |alive| && alive[q]
    ensures Count(alive) > 0
  {
    CountFall(alive, q);
  }

  lemma RankBelow(m: Match, m': Match, p: nat, q: nat)
    requires Sane(m) && Sane(m') && RanksKept(m, m') && m'.phase == Concluded
    requires p < |m.alive| && q < |m.alive| && !m.alive[p] && m.alive[q]
    ensures m'.order[p] == m.order[p] && m'.order[p] < m'.order[q]
  {
    CountSome(m.alive, q);
    assert RankKept(m, m', p) && RankKept(m, m', q);
  }

  /** Whoever is out while another player is still in finishes below that player. */
  lemma EarlierOutRanksLower(m: Match, events: seq<Event>, p: nat, q: nat)
    requires Sane(m) && CanRun(m, events) && After(m, events).phase == Concluded
    requires p < |m.alive| && q < |m.alive| && !m.alive[p] && m.alive[q]
    ensures p < |After(m, events).order| && q < |After(m, events).order|
    ensures After(m, events).order[p] == m.order[p] < After(m, events).order[q]
  {
    RunIsSane(m, events);
    RunKeepsRanks(m, events);
    RankBelow(m, After(m, events), p, q);
  }

  // ---------------------------------------------------------------- ratings

  /** In a rated match of any number of players, whoever outlives another player of the same or a higher
      rating gains more by it. */
  lemma LaterOutGainsMore(m: Match, events: seq<Event>, pow: real -> real, k: real, elos: seq<int>, deltas: seq<real>,
                          p: nat, q: nat)
    requires Sane(m) && CanRun(m, events) && After(m, events).phase == Concluded && IsTenPower(pow) && k > 0.0
    requires 2 <= |elos| == |After(m, events).order|
    requires AreChanges(Expected(pow, elos), k, After(m, events).order, deltas)
    requires p < |m.alive| && q < |m.alive| && !m.alive[p] && m.alive[q]
    requires p < |elos| && q < |elos| && elos[q] <= elos[p]
    ensures deltas[q] > deltas[p]
  {
    EarlierOutRanksLower(m, events, p, q);
    UpsetGainsMore(pow, k, elos, After(m, events).order, deltas, q, p);
  }
}
