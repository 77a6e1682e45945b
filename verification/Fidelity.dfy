/** Replaying what the server recorded. */
module Fidelity {
  import opened Basics
  import opened Boards
  import opened Commands
  import opened Eliminations
  import opened Matches
  import opened Ledger
  import opened Fairness
  import opened Replay

  lemma OneRecorded(b: Board, c: CommandHead)
    requires Ready(b) && LegalPlacement(b, c) && ReplayApply(b, c).Applied?
    ensures Recorded(b, [c]) && Forward(b, [c]).board == ReplayApply(b, c).board
  {
    ReplayKeepsBoard(b, c);
    var cmds := [c];
    assert cmds[1..] == [] && Recorded(ReplayApply(b, c).board, cmds[1..]);
  }

  /** Appending one command to a recorded history. */
  lemma {:induction false} ForwardNext(b: Board, cmds: seq<CommandHead>, c: CommandHead)
    requires Ready(b) && Recorded(b, cmds)
    ensures Ready(Forward(b, cmds).board)
    ensures var last := Forward(b, cmds).board;
            LegalPlacement(last, c) && ReplayApply(last, c).Applied? ==>
              Recorded(b, cmds + [c]) && Forward(b, cmds + [c]).board == ReplayApply(last, c).board
    decreases |cmds|
  {
    if cmds == [] {
      assert [] + [c] == [c];
      if LegalPlacement(b, c) && ReplayApply(b, c).Applied? {
        OneRecorded(b, c);
      }
    } else {
      ReplayKeepsBoard(b, cmds[0]);
      ForwardNext(ReplayApply(b, cmds[0]).board, cmds[1..], c);
      assert (cmds + [c])[0] == cmds[0] && (cmds + [c])[1..] == cmds[1..] + [c];
    }
  }

  /** The recorded history, replayed from the starting board, gives the server's board. */
  ghost predicate Faithful(m: Match, start: Board)
    requires Ready(start)
  {
    Recorded(start, m.history) && Forward(start, m.history).board == m.board && m.board.Anchored()
  }

  /** The player the event eliminates: a living one who forfeits, or the current one on a timeout. */
  function Eliminated(m: Match, e: Event): (p: Option<nat>)
    requires m.Shaped()
    ensures p.Some? ==> p.value < |m.alive|
  {
    if m.corrupt then None
    else match e
         case Forfeit(p) => if p < |m.alive| && m.phase != Concluded && m.alive[p] then Some(p) else None
         case TimerFires(t, expired) =>
           if t == m.turnId && !m.claimed && expired && m.alive[m.cur] then Some(m.cur) else None
         case _ => None
  }

  /** Destroying the player's tanks changes nothing: none is alive, and nobody stands where one lies. */
  predicate NothingLeft(b: Board, p: nat)
    requires b.Slotted() && p < |b.players|
  {
    LiveTanks(b, p) == 0 && !Overrun(b, p)
  }

  /** The best of a queue of commands. */
  function Best(q: seq<Command>): CommandHead
    requires q != []
  {
    q[Top(q)].head
  }

  /** The command the event takes from the current player's queue, if it comes to that: a delivery that
      is accepted, or a start_turn that opens the turn of a player with a command waiting. */
  function Takes(m: Match, e: Event): Option<CommandHead>
    requires m.Shaped() && Enabled(m, e)
  {
    if m.corrupt then None
    else match e
         case RunTurn =>
           var m1 := NewTurn(m);
           if m1.remaining > 1 && m1.alive[m1.cur] && m1.queues[m1.cur] != [] then Some(Best(m1.queues[m1.cur]))
           else None
         case Deliver(_, _, _) => if Accepting(m, e) then Some(Best(QueueWith(m, e))) else None
         case _ => None
  }

  /** The command is taken in play, which is where shots are accepted. */
  predicate TakesInPlay(m: Match, e: Event) {
    m.phase == Play || (e.RunTurn? && SetupOver(m))
  }

  /** The event takes a loaded shot whose first tank belongs to the shooter. */
  predicate FriendlyFire(m: Match, e: Event)
    requires m.Shaped() && Enabled(m, e)
  {
    && Takes(m, e).Some? && TakesInPlay(m, e)
    && var c := Takes(m, e).value;
       FriendlyFirst(m.board, c) && m.board.tanks[c.tankId].loaded
  }

  /** If the event eliminates a player, there is nothing left of that player on the board, and it does
      not take a shot at a friend. */
  predicate Harmless(m: Match, e: Event)
    requires m.Shaped() && Enabled(m, e)
  {
    (Eliminated(m, e).Some? ==> NothingLeft(m.board, Eliminated(m, e).value)) && !FriendlyFire(m, e)
  }

  /** The board and history of m' are those of m, or of m after one accepted command. */
  ghost predicate OneCommandOn(m: Match, m': Match)
    requires m.Shaped()
  {
    || (m'.board == m.board && m'.history == m.history)
    || exists c :: CommandOn(m, m', c)
  }

  ghost predicate CommandOn(m: Match, m': Match, c: CommandHead)
    requires m.Shaped()
  {
    var o := ServerApply(m.board, m.phase == Setup, c);
    o.Applied? && m'.board == o.board && m'.history == m.history + [c]
  }

  lemma AcceptRecords(m: Match, c: CommandHead)
    requires m.Shaped()
    ensures OneCommandOn(m, Accept(m, c))
  {
    if ServerApply(m.board, m.phase == Setup, c).Applied? {
      assert CommandOn(m, Accept(m, c), c);
    }
  }

  lemma MoveArrivedRecords(m: Match, t: nat)
    requires m.Shaped()
    ensures OneCommandOn(m, MoveArrived(m, t))
  {
    if t == m.turnId && !m.claimed && m.phase != Concluded && m.queues[m.cur] != [] {
      var i := Top(m.queues[m.cur]);
      var m1 := m.(claimed := true, queues := m.queues[m.cur := Without(m.queues[m.cur], i)]);
      AcceptRecords(m1, m.queues[m.cur][i].head);
      assert forall c :: CommandOn(m1, MoveArrived(m, t), c) ==> CommandOn(m, MoveArrived(m, t), c);
    }
  }

  lemma NewTurnRecordsNothing(m: Match)
    requires m.Shaped() && m.pending > 0
    ensures NewTurn(m).board == m.board && NewTurn(m).history == m.history
    ensures NewTurn(m).phase == (if SetupOver(m) then Play else m.phase)
  {
  }

  /** start_turn records at most one command, in the phase it starts the turn in. */
  lemma StartTurnRecords(m: Match)
    requires m.Shaped() && m.pending > 0
    ensures OneCommandOn(NewTurn(m), StartTurn(m))
  {
    var m1 := NewTurn(m);
    if m1.remaining > 1 && m1.alive[m1.cur] {
      var m2 := m1.(armed := Some((m1.cur, m1.turnId)));
      if m2.queues[m2.cur] != [] {
        MoveArrivedRecords(m2, m2.turnId);
        assert forall c :: CommandOn(m2, StartTurn(m), c) ==> CommandOn(m1, StartTurn(m), c);
      }
    }
  }

  lemma CommandFaithfulIff(m: Match, m': Match, c: CommandHead, start: Board)
    requires m.Shaped() && Ready(start) && Faithful(m, start) && CommandOn(m, m', c)
    ensures Faithful(m', start) <==> !FriendlyFirst(m.board, c)
  {
    StepFidelity(m.board, m.phase == Setup, c);
    ServerKeepsBoard(m.board, m.phase == Setup, c);
    ForwardNext(start, m.history, c);
  }

  /** The history does not grow, or grows by a command that is no shot at a friend first. */
  predicate NoFriendlyShot(m: Match, m': Match)
    requires m.Shaped()
  {
    |m'.history| > |m.history| ==> !FriendlyFirst(m.board, m'.history[|m.history|])
  }

  lemma OneOnFaithfulIff(m: Match, m': Match, start: Board)
    requires m.Shaped() && Ready(start) && Faithful(m, start) && OneCommandOn(m, m')
    ensures Faithful(m', start) <==> NoFriendlyShot(m, m')
  {
    if !(m'.board == m.board && m'.history == m.history) {
      var c :| CommandOn(m, m', c);
      CommandFaithfulIff(m, m', c, start);
    }
  }

  lemma RemovalRecordsNothing(m: Match, p: nat)
    requires m.Shaped() && p < |m.alive| && m.alive[p]
    ensures HandleElimination(m, p).board == Eliminate(m.board, p) && HandleElimination(m, p).history == m.history
  {
  }

  lemma EliminationFaithfulIff(m: Match, p: nat, start: Board)
    requires m.Shaped() && Ready(start) && Faithful(m, start) && p < |m.alive| && m.alive[p]
    ensures Faithful(HandleElimination(m, p), start) <==> NothingLeft(m.board, p)
    ensures HandleElimination(m, p).history == m.history
  {
    RemovalRecordsNothing(m, p);
    EliminateIdleIff(m.board, p);
  }

  /** A command's shot at a friend is on record exactly if it was in play and the tank was loaded. */
  lemma AcceptShootsIff(m: Match, c: CommandHead)
    requires m.Shaped()
    ensures NoFriendlyShot(m, Accept(m, c)) <==>
            !(m.phase != Setup && FriendlyFirst(m.board, c) && m.board.tanks[c.tankId].loaded)
  {
  }

  /** The same for the command on_player_move_arrived takes. */
  lemma MoveArrivedShootsIff(m: Match, t: nat)
    requires m.Shaped()
    ensures NoFriendlyShot(m, MoveArrived(m, t)) <==>
            !(t == m.turnId && !m.claimed && m.queues[m.cur] != [] && m.phase == Play
              && var c := Best(m.queues[m.cur]); FriendlyFirst(m.board, c) && m.board.tanks[c.tankId].loaded)
  {
    if t == m.turnId && !m.claimed && m.phase != Concluded && m.queues[m.cur] != [] {
      var i := Top(m.queues[m.cur]);
      AcceptShootsIff(m.(claimed := true, queues := m.queues[m.cur := Without(m.queues[m.cur], i)]),
                      m.queues[m.cur][i].head);
    }
  }

  lemma DeliveryFaithfulIff(m: Match, e: Event, start: Board)
    requires m.Shaped() && e.Deliver? && Ready(start) && Faithful(m, start)
    ensures Faithful(Step(m, e), start) <==> !FriendlyFire(m, e)
  {
    var p, t := e.player, e.turn;
    if !m.corrupt && p < |m.alive| && m.phase != Concluded && t == m.turnId && |m.queues[p]| < MAX_QUEUE_SIZE
       && p == m.cur {
      var m1 := m.(queues := m.queues[p := QueueWith(m, e)]);
      MoveArrivedRecords(m1, t);
      OneOnFaithfulIff(m1, MoveArrived(m1, t), start);
      MoveArrivedShootsIff(m1, t);
    }
  }

  lemma TurnShootsIff(m: Match)
    requires m.Shaped() && !m.corrupt && m.pending > 0
    ensures NoFriendlyShot(m, StartTurn(m)) <==> !FriendlyFire(m, RunTurn)
  {
    NewTurnRecordsNothing(m);
    var m1 := NewTurn(m);
    if m1.remaining > 1 && m1.alive[m1.cur] {
      MoveArrivedShootsIff(m1.(armed := Some((m1.cur, m1.turnId))), m1.turnId);
    }
  }

  lemma TurnFaithfulIff(m: Match, start: Board)
    requires m.Shaped() && !m.corrupt && m.pending > 0 && Ready(start) && Faithful(m, start)
    ensures Faithful(StartTurn(m), start) <==> !FriendlyFire(m, RunTurn)
  {
    NewTurnRecordsNothing(m);
    StartTurnRecords(m);
    OneOnFaithfulIff(NewTurn(m), StartTurn(m), start);
    TurnShootsIff(m);
  }

  /** A step keeps the recorded history faithful exactly when it is harmless: eliminations are not
      recorded, and the replay lets a shot hit a friend. */
  lemma StepFaithfulIff(m: Match, e: Event, start: Board)
    requires m.Shaped() && Enabled(m, e) && Ready(start) && Faithful(m, start)
    ensures Faithful(Step(m, e), start) <==> Harmless(m, e)
  {
    if !m.corrupt {
      match e
      case RunTurn => TurnFaithfulIff(m, start);
      case Deliver(_, _, _) => DeliveryFaithfulIff(m, e, start);
      case TimerFires(t, expired) =>
        if t == m.turnId && !m.claimed && expired && m.alive[m.cur] {
          EliminationFaithfulIff(m.(claimed := true), m.cur, start);
        }
      case Forfeit(p) =>
        if p < |m.alive| && m.phase != Concluded && m.alive[p] {
          EliminationFaithfulIff(m, p, start);
        }
      case Sync(p) =>
    }
  }

  ghost predicate HarmlessRun(m: Match, events: seq<Event>)
    requires Sane(m) && CanRun(m, events)
    decreases |events|
  {
    events == [] ||
    (Harmless(m, events[0]) && (StepIsSane(m, events[0]); HarmlessRun(Step(m, events[0]), events[1..])))
  }

  ghost predicate FaithfulThroughout(m: Match, events: seq<Event>, start: Board)
    requires Sane(m) && CanRun(m, events) && Ready(start)
    decreases |events|
  {
    && Faithful(m, start)
    && (events == [] || (StepIsSane(m, events[0]); FaithfulThroughout(Step(m, events[0]), events[1..], start)))
  }

  /** At every point of a run, replaying the recorded history reproduces the server's board and both
      halves of board consistency hold, exactly when every event of the run is harmless. */
  lemma {:induction false} RunIsFaithfulIff(m: Match, events: seq<Event>, start: Board)
    requires Sane(m) && CanRun(m, events) && Ready(start) && Faithful(m, start)
    ensures FaithfulThroughout(m, events, start) <==> HarmlessRun(m, events)
    ensures HarmlessRun(m, events) ==> Faithful(After(m, events), start)
    decreases |events|
  {
    if events != [] {
      StepIsSane(m, events[0]);
      StepFaithfulIff(m, events[0], start);
      if Harmless(m, events[0]) {
        RunIsFaithfulIff(Step(m, events[0]), events[1..], start);
      }
    }
  }

  /** From the start of a match: the replay of a harmless run is faithful, and going all the way back
      leads to the empty board again. */
  lemma ReplayOfMatch(m: Match, events: seq<Event>)
    requires Initial(m)
    ensures Sane(m)
    ensures CanRun(m, events) && HarmlessRun(m, events) ==>
              var end := After(m, events);
              && Faithful(end, m.board)
              && (var r := Forward(m.board, end.history);
                  Backward(r.board, end.history, r.statuses) == Some(m.board))
  {
    InitialIsSane(m);
    if CanRun(m, events) && HarmlessRun(m, events) {
      RunIsFaithfulIff(m, events, m.board);
      NothingPlaced(m.board);
      UndoRestoresIff(m.board, After(m, events).history);
    }
  }

  /** On an empty board no tank has an owner yet. */
  lemma NothingPlaced(b: Board)
    requires b.Slotted() && forall p :: 0 <= p < |b.players| ==> b.players[p].placed == 0
    ensures forall i :: 0 <= i < |b.tanks| ==> b.tanks[i].owner == NOTHING
  {
    forall i | 0 <= i < |b.tanks|
      ensures b.tanks[i].owner == NOTHING
    {
      var p, k := SlotOf(b, i);
      assert b.GoodPlayer(p);
    }
  }
}
