/** Placements over whole runs: every one on record lies in its sender's own area of the map, off
    terrain, whatever the map and whoever was to move. */
module Areas {
  import opened Boards
  import opened Commands
  import opened Eliminations
  import opened Matches
  import opened Ledger
  import opened Fidelity

  /** A placement lies on the board, off terrain, on a cell marked with its sender's number. */
  predicate InOwnArea(b: Board, c: CommandHead)
    requires b.Sized()
  {
    c.kind == Place ==>
      b.InBounds(Target(c)) && b.At(Target(c)).kind != Terrain && b.mask[b.Idx(Target(c))] == c.sender
  }

  predicate AllInArea(b: Board, history: seq<CommandHead>)
    requires b.Sized()
  {
    forall i :: 0 <= i < |history| ==> InOwnArea(b, history[i])
  }

  lemma SameMapSameArea(b: Board, b': Board, history: seq<CommandHead>)
    requires b.Sized() && b'.Sized() && SameMap(b, b') && AllInArea(b, history)
    ensures AllInArea(b', history)
  {
    forall i | 0 <= i < |history|
      ensures InOwnArea(b', history[i])
    {
      assert InOwnArea(b, history[i]);
    }
  }

  lemma AcceptedIsInArea(b: Board, setup: bool, c: CommandHead)
    requires Ready(b) && ServerApply(b, setup, c).Applied?
    ensures InOwnArea(b, c)
  {
  }

  lemma CommandKeepsAreas(m: Match, m': Match, c: CommandHead)
    requires m.Shaped() && AllInArea(m.board, m.history) && CommandOn(m, m', c)
    ensures m'.board.Sized() && AllInArea(m'.board, m'.history)
  {
    ServerKeepsBoard(m.board, m.phase == Setup, c);
    AcceptedIsInArea(m.board, m.phase == Setup, c);
    SameMapSameArea(m.board, m'.board, m.history + [c]);
  }

  lemma OneOnKeepsAreas(m: Match, m': Match)
    requires m.Shaped() && AllInArea(m.board, m.history) && OneCommandOn(m, m')
    ensures m'.board.Sized() && AllInArea(m'.board, m'.history)
  {
    if !(m'.board == m.board && m'.history == m.history) {
      var c :| CommandOn(m, m', c);
      CommandKeepsAreas(m, m', c);
    }
  }

  lemma TurnKeepsAreas(m: Match)
    requires m.Shaped() && m.pending > 0 && AllInArea(m.board, m.history)
    ensures StartTurn(m).board.Sized() && AllInArea(StartTurn(m).board, StartTurn(m).history)
  {
    NewTurnRecordsNothing(m);
    StartTurnRecords(m);
    OneOnKeepsAreas(NewTurn(m), StartTurn(m));
  }

  lemma DeliveryKeepsAreas(m: Match, p: nat, c: Command, t: nat, m': Match)
    requires m.Shaped() && AllInArea(m.board, m.history) && m' == Step(m, Deliver(p, c, t))
    ensures m'.board.Sized() && AllInArea(m'.board, m'.history)
  {
    if !m.corrupt && p < |m.alive| && m.phase != Concluded && t == m.turnId && |m.queues[p]| < MAX_QUEUE_SIZE {
      var m1 := m.(queues := m.queues[p := m.queues[p] + [c.(head := c.head.(sender := p))]]);
      MoveArrivedRecords(m1, t);
      OneOnKeepsAreas(m1, MoveArrived(m1, t));
    }
  }

  lemma EliminationKeepsAreas(m: Match, p: nat)
    requires m.Shaped() && AllInArea(m.board, m.history) && p < |m.alive| && m.alive[p]
    ensures HandleElimination(m, p).board.Sized()
    ensures AllInArea(HandleElimination(m, p).board, HandleElimination(m, p).history)
  {
    RemovalRecordsNothing(m, p);
    EliminateKeeps(m.board, p);
    SameMapSameArea(m.board, Eliminate(m.board, p), m.history);
  }

  lemma StepKeepsAreas(m: Match, e: Event)
    requires m.Shaped() && Enabled(m, e) && AllInArea(m.board, m.history)
    ensures Step(m, e).board.Sized() && AllInArea(Step(m, e).board, Step(m, e).history)
  {
    if !m.corrupt {
      match e
      case RunTurn => TurnKeepsAreas(m);
      case Deliver(p, c, t) => DeliveryKeepsAreas(m, p, c, t, Step(m, e));
      case TimerFires(t, expired) =>
        if t == m.turnId && !m.claimed && expired && m.alive[m.cur] {
          EliminationKeepsAreas(m.(claimed := true), m.cur);
        }
      case Forfeit(p) =>
        if p < |m.alive| && m.phase != Concluded && m.alive[p] {
          EliminationKeepsAreas(m, p);
        }
      case Sync(p) =>
    }
  }

  /** After any run every placement on record lies in its sender's area, off terrain. */
  lemma {:induction false} RunKeepsAreas(m: Match, events: seq<Event>)
    requires Sane(m) && CanRun(m, events) && AllInArea(m.board, m.history)
    ensures After(m, events).board.Sized() && AllInArea(After(m, events).board, After(m, events).history)
    decreases |events|
  {
    if events != [] {
      StepIsSane(m, events[0]);
      StepKeepsAreas(m, events[0]);
      RunKeepsAreas(Step(m, events[0]), events[1..]);
    }
  }
}
