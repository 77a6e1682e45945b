/** "Every live tank is named by its cell" over whole runs, and what it gives the views. */
module Anchors {
  import opened Boards
  import opened Commands
  import opened Eliminations
  import opened Matches
  import opened Ledger
  import opened Fidelity
  import opened Vision

  /** The event eliminates nobody on one of whose tanks somebody else's live tank stands. */
  predicate SparesCells(m: Match, e: Event)
    requires m.Shaped()
  {
    Eliminated(m, e).Some? ==> !Overrun(m.board, Eliminated(m, e).value)
  }

  lemma OneOnIsAnchored(m: Match, m': Match)
    requires m.Shaped() && m.board.Anchored() && OneCommandOn(m, m')
    ensures m'.board.Anchored()
  {
    if !(m'.board == m.board && m'.history == m.history) {
      var c :| CommandOn(m, m', c);
      ServerKeepsBoard(m.board, m.phase == Setup, c);
    }
  }

  lemma TurnIsAnchored(m: Match)
    requires m.Shaped() && m.pending > 0 && m.board.Anchored()
    ensures StartTurn(m).board.Anchored()
  {
    NewTurnRecordsNothing(m);
    StartTurnRecords(m);
    OneOnIsAnchored(NewTurn(m), StartTurn(m));
  }

  lemma DeliveryIsAnchored(m: Match, p: nat, c: Command, t: nat)
    requires m.Shaped() && m.board.Anchored()
    ensures Step(m, Deliver(p, c, t)).board.Anchored()
  {
    if !m.corrupt && p < |m.alive| && m.phase != Concluded && t == m.turnId && |m.queues[p]| < MAX_QUEUE_SIZE {
      var m1 := m.(queues := m.queues[p := m.queues[p] + [c.(head := c.head.(sender := p))]]);
      MoveArrivedRecords(m1, t);
      OneOnIsAnchored(m1, MoveArrived(m1, t));
    }
  }

  lemma EliminationAnchoredIff(m: Match, p: nat)
    requires m.Shaped() && m.board.Anchored() && p < |m.alive| && m.alive[p]
    ensures HandleElimination(m, p).board.Anchored() <==> !Overrun(m.board, p)
  {
    RemovalRecordsNothing(m, p);
    EliminateAnchoredIff(m.board, p);
  }

  /** Of all events, only the elimination of a player one of whose tanks somebody else stands on breaks
      it. */
  lemma StepAnchoredIff(m: Match, e: Event)
    requires m.Shaped() && Enabled(m, e) && m.board.Anchored()
    ensures Step(m, e).board.Anchored() <==> SparesCells(m, e)
  {
    if !m.corrupt {
      match e
      case RunTurn => TurnIsAnchored(m);
      case Deliver(p, c, t) => DeliveryIsAnchored(m, p, c, t);
      case TimerFires(t, expired) =>
        if t == m.turnId && !m.claimed && expired && m.alive[m.cur] {
          EliminationAnchoredIff(m.(claimed := true), m.cur);
        }
      case Forfeit(p) =>
        if p < |m.alive| && m.phase != Concluded && m.alive[p] {
          EliminationAnchoredIff(m, p);
        }
      case Sync(p) =>
    }
  }

  ghost predicate CellsSpared(m: Match, events: seq<Event>)
    requires Sane(m) && CanRun(m, events)
    decreases |events|
  {
    events == [] ||
    (SparesCells(m, events[0]) && (StepIsSane(m, events[0]); CellsSpared(Step(m, events[0]), events[1..])))
  }

  ghost predicate AnchoredThroughout(m: Match, events: seq<Event>)
    requires Sane(m) && CanRun(m, events)
    decreases |events|
  {
    m.board.Anchored() &&
    (events == [] || (StepIsSane(m, events[0]); AnchoredThroughout(Step(m, events[0]), events[1..])))
  }

  /** Every live tank is named by its cell at every point of a run exactly when no elimination of the run
      empties a cell somebody else stands on. */
  lemma {:induction false} RunIsAnchoredIff(m: Match, events: seq<Event>)
    requires Sane(m) && CanRun(m, events) && m.board.Anchored()
    ensures AnchoredThroughout(m, events) <==> CellsSpared(m, events)
    ensures CellsSpared(m, events) ==> After(m, events).board.Anchored()
    decreases |events|
  {
    if events != [] {
      StepIsSane(m, events[0]);
      StepAnchoredIff(m, events[0]);
      if SparesCells(m, events[0]) {
        RunIsAnchoredIff(Step(m, events[0]), events[1..]);
      }
    }
  }

  /** So after such a run from the start of a match every player's view shows the truth: in each cell the
      true occupant if the cell is visible and nobody otherwise, and everybody on a visible cell listed. */
  lemma RunShowsTheTruth(m: Match, events: seq<Event>, player: nat, c: nat)
    requires Initial(m)
    ensures Sane(m)
    ensures CanRun(m, events) && CellsSpared(m, events) ==>
              var b := After(m, events).board;
              && Ready(b)
              && (player < |b.players| && c < |b.cells| ==>
                    var v := ComputeView(b, player);
                    && v.cells[c].occupant == (if v.cells[c].visible then b.cells[c].occupant else NOTHING)
                    && (v.cells[c].visible && b.cells[c].occupant != NOTHING ==>
                          b.tanks[b.cells[c].occupant] in v.listed))
  {
    InitialIsSane(m);
    if CanRun(m, events) && CellsSpared(m, events) {
      RunIsSane(m, events);
      RunIsAnchoredIff(m, events);
      var b := After(m, events).board;
      if player < |b.players| && c < |b.cells| {
        ViewIsExact(b, player, c);
      }
    }
  }
}
