/** What a placement that slips in does.  An in-turn elimination leaves its turn unclaimed, and in setup
    the next player can be handed it as a turn too many: a player with every tank placed then runs past
    its tank list, and a dead player owns a live tank. */
module Overruns {
  import opened Basics
  import opened Boards
  import opened Commands
  import opened Eliminations
  import opened Matches
  import opened Ledger
  import opened Fairness

  /** A start_turn that opens a setup turn. */
  lemma TurnOpens(m: Match)
    requires m.Shaped() && m.pending > 0 && !m.corrupt && !SetupOver(m) && m.remaining >= 2
    requires m.alive[m.cur] && m.queues[m.cur] == []
    ensures Step(m, RunTurn) == m.(pending := m.pending - 1, turnId := m.turnId + 1, claimed := false,
                                   armed := Some((m.cur, m.turnId + 1)))
  {
  }

  predicate Arrives(m: Match, c: Command) {
    && m.phase != Concluded && !m.claimed && !m.corrupt && c.head.sender == m.cur < |m.queues|
    && m.queues[m.cur] == []
  }

  lemma ArrivalIsAccepted(m: Match, c: Command)
    requires m.Shaped() && Arrives(m, c)
    ensures m.(claimed := true).Shaped()
    ensures Step(m, Deliver(m.cur, c, m.turnId)) == Accept(m.(claimed := true), c.head)
  {
    var m1 := m.(queues := m.queues[m.cur := m.queues[m.cur] + [c]]);
    assert c.(head := c.head.(sender := m.cur)) == c;
    assert m1.queues[m.cur] == [c] && Without([c], 0) == [];
    assert m1.queues[m.cur := []] == m.queues;
  }

  /** A placement that goes through passes the turn on. */
  lemma PlacementArrives(m: Match, c: Command)
    requires m.Shaped() && Arrives(m, c) && m.phase == Setup
    requires c.head.kind == Place && ServerApply(m.board, true, c.head).Applied?
    ensures Step(m, Deliver(m.cur, c, m.turnId)) ==
            m.(board := ServerApply(m.board, true, c.head).board, claimed := true, history := m.history + [c.head],
               placedTotal := Wrap8(m.placedTotal + 1), cur := m.Next(), pending := m.pending + 1)
  {
    ArrivalIsAccepted(m, c);
    PlacementPasses(m.(claimed := true), c.head);
  }

  lemma ForfeitInSetup(m: Match, p: nat)
    requires m.Shaped() && m.phase == Setup && !m.corrupt && p == m.cur && m.alive[p]
    ensures Step(m, Forfeit(p)) == Post(CutTurn(Remove(m, p)))
  {
    ViewsDrop(Remove(m, p), 0);
  }

  /** The general pattern: the player to move forfeits, and the next player, who has placed
      everything, still gets a placement into the turn the forfeit left open. */
  lemma ForfeitLeavesTurnOpen(m: Match, c: Command)
    requires m.Shaped() && m.phase == Setup && !m.corrupt && !m.claimed && m.alive[m.cur]
    requires c.head.kind == Place && c.head.sender == m.Next() != m.cur && m.queues[m.Next()] == []
    requires ServerApply(Remove(m, m.cur).board, true, c.head).OutOfRange?
    ensures Step(Step(m, Forfeit(m.cur)), Deliver(m.Next(), c, m.turnId)).corrupt
  {
    ForfeitInSetup(m, m.cur);
    ArrivalIsAccepted(Step(m, Forfeit(m.cur)), c);
  }

  // ---------------------------------------------------------------- exactly when

  lemma OutOfRangeIff(b: Board, setup: bool, c: CommandHead)
    requires Ready(b) && c.sender < |b.players|
    ensures ServerApply(b, setup, c).OutOfRange? <==>
            && setup && c.kind == Place && b.InBounds(Target(c)) && CheckPlacement(b, Target(c), c.sender)
            && c.tankId < 8 && b.players[c.sender].placed == b.numTanks
  {
    assert b.GoodPlayer(c.sender);
  }

  lemma AcceptCorruptsIff(m: Match, c: CommandHead)
    requires m.Shaped() && !m.corrupt
    ensures Accept(m, c).corrupt <==> ServerApply(m.board, m.phase == Setup, c).OutOfRange?
  {
    var o := ServerApply(m.board, m.phase == Setup, c);
    if o.Applied? {
      ServerKeepsBoard(m.board, m.phase == Setup, c);
    }
  }

  lemma DeliveryIsAccepted(m: Match, e: Event)
    requires m.Shaped() && !m.corrupt && Accepting(m, e)
    ensures var q := QueueWith(m, e);
            var m1 := m.(claimed := true, queues := m.queues[m.cur := Without(q, Top(q))]);
            m1.Shaped() && q[Top(q)].head.sender == m.cur && Step(m, e) == Accept(m1, q[Top(q)].head)
  {
    var q := QueueWith(m, e);
    forall c | c in q
      ensures c.head.sender == m.cur
    {
    }
    assert q[Top(q)] in q;
    assert m.queues[m.cur := q][m.cur := Without(q, Top(q))] == m.queues[m.cur := Without(q, Top(q))];
  }

  /** From any fair state, an event runs a placement past its player's tank list exactly when it slips
      in for a player who has placed everything. */
  lemma OverrunIff(m: Match, e: Event)
    requires Fair(m) && Enabled(m, e)
    ensures Step(m, e).corrupt <==> Slips(m, e) && m.board.players[m.cur].placed == m.board.numTanks
  {
    if Accepting(m, e) {
      var q := QueueWith(m, e);
      DeliveryIsAccepted(m, e);
      AcceptCorruptsIff(m.(claimed := true, queues := m.queues[m.cur := Without(q, Top(q))]), q[Top(q)].head);
      OutOfRangeIff(m.board, m.phase == Setup, q[Top(q)].head);
    } else {
      StepIsFairIff(m, e);
    }
  }

  /** The player who was to move is dead, owns a live tank now, and the tank counts as placed. */
  predicate ArmedWhileDead(m: Match, m': Match)
    requires m.Shaped()
  {
    && |m'.alive| == |m.alive| && !m'.alive[m.cur] && m'.board.Slotted() && m.cur < |m'.board.players|
    && LiveTanks(m'.board, m.cur) > 0 && m'.placedTotal == Wrap8(m.placedTotal + 1)
    && m'.remaining == m.remaining && m'.phase == Setup
  }

  lemma ArmsTheDead(m: Match, c: CommandHead)
    requires m.Shaped() && Slipping(m, c) && m.board.players[m.cur].placed < m.board.numTanks && c.sender == m.cur
    ensures ArmedWhileDead(m, Accept(m, c))
  {
    SlipOutcome(m, c);
    PlacementArms(m.board, c);
    PlacementPasses(m, c);
  }

  /** Every other slip gives a dead player a live tank, and counts it as placed. */
  lemma OtherSlipsArmTheDead(m: Match, e: Event)
    requires Fair(m) && Slips(m, e) && m.board.players[m.cur].placed < m.board.numTanks
    ensures ArmedWhileDead(m, Step(m, e))
  {
    var q := QueueWith(m, e);
    DeliveryIsAccepted(m, e);
    SlipArmsTheDead(m, m.(claimed := true, queues := m.queues[m.cur := Without(q, Top(q))]), q[Top(q)].head);
  }

  lemma SlipArmsTheDead(m: Match, m1: Match, c: CommandHead)
    requires m.Shaped() && Slipping(m, c) && m.board.players[m.cur].placed < m.board.numTanks && c.sender == m.cur
    requires m1.Shaped() && m1 == m.(claimed := true, queues := m1.queues)
    ensures ArmedWhileDead(m, Accept(m1, c))
  {
    ArmsTheDead(m1, c);
  }

  // ---------------------------------------------------------------- one such run

  /** Two flat cells, both in the first player's placement area; one tank each. */
  function SmallBoard(): Board {
    NewBoard(2, 1, 1, 2, [Flat, Flat], [0, 0])
  }

  function At(x: u8): Command {
    Command(CommandHead(0, Place, 0, x, 0), 0)
  }

  function Start(): Match {
    Match(SmallBoard(), [true, true], [0, 0], 0, 2, 0, TURN_PLAYER_FUEL, Setup, 0, [], 0, false,
          [[], []], 1, None, false, [])
  }

  predicate TwoCells(b: Board) {
    Ready(b) && b.width == 2 && b.height == 1 && b.numTanks == 1 && b.mask == [0, 0] && |b.players| == 2
    && b.cells[1] == Cell(Flat, NOTHING, true)
  }

  lemma SmallBoardIs(b: Board)
    requires b == SmallBoard()
    ensures TwoCells(b) && b.Anchored() && b.cells[0] == Cell(Flat, NOTHING, true)
    ensures b.players[0].placed == 0 && b.players[1].placed == 0
  {
    NewBoardIsSound(2, 1, 1, 2, [Flat, Flat], [0, 0]);
  }

  lemma PlacementApplies(b: Board, c: CommandHead)
    requires Ready(b) && c.kind == Place && b.InBounds(Target(c)) && CheckPlacement(b, Target(c), c.sender)
    requires c.tankId < 8 && c.sender < |b.players| && b.players[c.sender].placed < b.numTanks
    ensures CanPlace(b, Target(c), c.sender)
    ensures var o := ServerApply(b, true, c);
            && o == Applied(PlaceTank(b, Target(c), c.sender, c.tankId), Flag(false))
            && Ready(o.board) && SameMap(b, o.board)
            && (forall p :: 0 <= p < |b.players| ==>
                  o.board.players[p].placed == b.players[p].placed + (if p == c.sender then 1 else 0))
            && (forall i :: 0 <= i < |b.cells| && i != b.Idx(Target(c)) ==> o.board.cells[i] == b.cells[i])
  {
    assert b.GoodPlayer(c.sender);
    ServerKeepsBoard(b, true, c);
  }

  predicate HalfPlaced(b: Board) {
    TwoCells(b) && b.players[0].placed == 1 && b.players[1].placed == 0
  }

  lemma FirstPlacement(b: Board, c: CommandHead)
    requires TwoCells(b) && b.cells[0] == Cell(Flat, NOTHING, true) && b.players[0].placed == 0 == b.players[1].placed
    requires c.kind == Place && c.sender == c.tankId == c.first == c.second == 0
    ensures var o := ServerApply(b, true, c); o.Applied? && HalfPlaced(o.board)
  {
    assert b.Idx(Target(c)) == 0;
    PlacementApplies(b, c);
  }

  /** A player goes without having placed anything. */
  lemma NothingToDestroy(b: Board, p: nat)
    requires Ready(b) && p < |b.players| && b.players[p].placed == 0
    ensures Eliminate(b, p) == b
  {
    assert PlacedIds(b, p) == [];
    assert Eliminate(b, p).tanks == b.tanks && Eliminate(b, p).cells == b.cells;
  }

  lemma SecondPlacement(b: Board, c: CommandHead)
    requires HalfPlaced(b) && c.kind == Place && c.sender == c.tankId == c.second == 0 && c.first == 1
    ensures ServerApply(b, true, c).OutOfRange?
  {
    assert b.Idx(Target(c)) == 1 && b.mask[1] == 0;
  }

  function FirstTurn(): Match {
    Start().(pending := 0, turnId := 1, armed := Some((0, 1)))
  }

  function FirstPlaced(b: Board): Match {
    FirstTurn().(board := b, claimed := true, history := [At(0).head], placedTotal := 1, cur := 1, pending := 1)
  }

  /** The second player's turn is open. */
  function SecondTurn(b: Board): Match {
    FirstPlaced(b).(pending := 0, turnId := 2, claimed := false, armed := Some((1, 2)))
  }

  lemma ToFirstTurn(m: Match)
    requires m == Start()
    ensures Initial(m) && Step(m, RunTurn) == FirstTurn()
  {
    SmallBoardIs(m.board);
    TurnOpens(m);
  }

  lemma ToFirstPlaced(m: Match, c: Command) returns (b: Board)
    requires m.Shaped() && m == FirstTurn() && c == At(0)
    ensures HalfPlaced(b) && Step(m, Deliver(0, c, 1)) == FirstPlaced(b)
  {
    SmallBoardIs(m.board);
    FirstPlacement(m.board, c.head);
    PlacementArrives(m, c);
    b := ServerApply(m.board, true, c.head).board;
    assert m.history + [c.head] == [c.head];
  }

  lemma ToSecondTurn(m: Match, b: Board)
    requires m.Shaped() && HalfPlaced(b) && m == FirstPlaced(b)
    ensures Step(m, RunTurn) == SecondTurn(b)
  {
    TurnOpens(m);
  }

  lemma SecondTurnOverruns(m: Match, b: Board, c: Command)
    requires m.Shaped() && HalfPlaced(b) && m == SecondTurn(b) && c == At(1)
    ensures Step(m, Forfeit(1)).Shaped()
    ensures Step(Step(m, Forfeit(1)), Deliver(0, c, 2)).corrupt
  {
    NothingToDestroy(b, 1);
    SecondPlacement(b, c.head);
    ForfeitInSetup(m, 1);
    ForfeitLeavesTurnOpen(m, c);
  }

  /** The first player places its tank, the second one forfeits its turn, and the first player places
      again: into the second player's slice of tanks and past the end of its own list. */
  lemma SetupCanOverrun(m: Match, c: Command, c': Command)
    requires m == Start() && c == At(0) && c' == At(1)
    ensures Initial(m) && Sane(m)
    ensures var events := [RunTurn] + ([Deliver(0, c, 1)] + ([RunTurn] + ([Forfeit(1)] + ([Deliver(0, c', 2)] + []))));
            CanRun(m, events) && After(m, events).corrupt
  {
    ToFirstTurn(m);
    InitialIsSane(m);
    var m1 := Step(m, RunTurn);
    StepIsSane(m, RunTurn);
    var b := ToFirstPlaced(m1, c);
    var m2 := Step(m1, Deliver(0, c, 1));
    StepIsSane(m1, Deliver(0, c, 1));
    ToSecondTurn(m2, b);
    var m3 := Step(m2, RunTurn);
    StepIsSane(m2, RunTurn);
    SecondTurnOverruns(m3, b, c');
    var m4 := Step(m3, Forfeit(1));
    StepIsSane(m3, Forfeit(1));
    StepIsSane(m4, Deliver(0, c', 2));
    RunOn(m4, Deliver(0, c', 2), Step(m4, Deliver(0, c', 2)), []);
    RunOn(m3, Forfeit(1), m4, [Deliver(0, c', 2)] + []);
    RunOn(m2, RunTurn, m3, [Forfeit(1)] + ([Deliver(0, c', 2)] + []));
    RunOn(m1, Deliver(0, c, 1), m2, [RunTurn] + ([Forfeit(1)] + ([Deliver(0, c', 2)] + [])));
    RunOn(m, RunTurn, m1, [Deliver(0, c, 1)] + ([RunTurn] + ([Forfeit(1)] + ([Deliver(0, c', 2)] + []))));
  }

  // ---------------------------------------------------------------- a tank for a dead player

  /** The player is out, and had no tank on the board. */
  function Gone(m: Match, p: nat): Match
    requires p < |m.alive| == |m.order| == |m.queues|
  {
    Fall(m, p).(queues := m.queues[p := []])
  }

  predicate EmptyHanded(m: Match, p: nat)
    requires m.Shaped()
  {
    m.phase == Setup && !m.corrupt && p < |m.alive| && m.alive[p] && m.board.players[p].placed == 0
  }

  lemma EmptyHandedLeaves(m: Match, p: nat)
    requires m.Shaped() && EmptyHanded(m, p) && p != m.cur
    ensures Step(m, Forfeit(p)) == Post(Gone(m, p))
  {
    NothingToDestroy(m.board, p);
    ViewsDrop(Remove(m, p), 0);
  }

  lemma EmptyHandedPasses(m: Match, p: nat)
    requires m.Shaped() && EmptyHanded(m, p) && p == m.cur
    ensures Step(m, Forfeit(p)) == Post(Gone(m, p).(cur := m.Next(), fuel := TURN_PLAYER_FUEL))
  {
    NothingToDestroy(m.board, p);
    ForfeitInSetup(m, p);
  }

  /** Four players, one tank each, and both cells in the second player's placement area. */
  function OtherBoard(): Board {
    NewBoard(2, 1, 1, 4, [Flat, Flat], [1, 1])
  }

  function OtherStart(): Match {
    Match(OtherBoard(), [true, true, true, true], [0, 0, 0, 0], 0, 4, 0, TURN_PLAYER_FUEL, Setup, 0, [], 0, false,
          [[], [], [], []], 1, None, false, [])
  }

  predicate OtherCells(b: Board) {
    && Ready(b) && b.width == 2 && b.height == 1 && b.numTanks == 1 && |b.players| == 4
    && b.cells[0] == Cell(Flat, NOTHING, true) && b.mask[0] == 1
    && forall p :: 0 <= p < 4 ==> b.players[p].placed == 0
  }

  lemma OtherBoardIs(b: Board)
    requires b == OtherBoard()
    ensures OtherCells(b) && b.Anchored()
  {
    NewBoardIsSound(2, 1, 1, 4, [Flat, Flat], [1, 1]);
  }

  /** An open first turn with nothing placed and `left` players left. */
  predicate FirstOfFour(m: Match, left: int)
    requires m.Shaped()
  {
    && m.phase == Setup && !m.claimed && !m.corrupt && m.turnId == 1 && m.placedTotal == 0 && m.remaining == left
    && OtherCells(m.board) && (forall p :: 0 <= p < 4 ==> m.queues[p] == [])
  }

  /** The turn has passed on to the second player, who is dead. */
  predicate DeadToMove(m: Match)
    requires m.Shaped()
  {
    FirstOfFour(m, 2) && m.cur == 1 && !m.alive[1]
  }

  lemma ToFirstOfFour(m: Match)
    requires m == OtherStart()
    ensures Initial(m)
    ensures var m1 := Step(m, RunTurn); m1.Shaped() && FirstOfFour(m1, 4) && m1.cur == 0 && m1.alive[0] && m1.alive[1]
  {
    OtherBoardIs(m.board);
    TurnOpens(m);
  }

  lemma SecondLeaves(m: Match, p: nat)
    requires m.Shaped() && FirstOfFour(m, 4) && m.cur == 0 && m.alive[0] && m.alive[1] && p == 1
    ensures var m1 := Step(m, Forfeit(p));
            m1.Shaped() && FirstOfFour(m1, 3) && m1.cur == 0 && m1.alive[0] && !m1.alive[1]
  {
    EmptyHandedLeaves(m, p);
  }

  lemma FirstPasses(m: Match, p: nat)
    requires m.Shaped() && FirstOfFour(m, 3) && m.cur == 0 && m.alive[0] && !m.alive[1] && p == 0
    ensures var m1 := Step(m, Forfeit(p)); m1.Shaped() && DeadToMove(m1)
  {
    EmptyHandedPasses(m, p);
  }

  lemma DeadPlayerSlips(m: Match, c: CommandHead)
    requires m.Shaped() && DeadToMove(m)
    requires c.kind == Place && c.tankId == c.first == c.second == 0
    ensures Slipping(m, c) && m.board.players[m.cur].placed < m.board.numTanks
  {
    assert m.board.Idx(Target(c)) == 0;
  }

  lemma ArrivalArms(m: Match, c: Command)
    requires m.Shaped() && Arrives(m, c) && Slipping(m, c.head)
    requires m.board.players[m.cur].placed < m.board.numTanks
    ensures ArmedWhileDead(m, Step(m, Deliver(m.cur, c, m.turnId)))
  {
    ArrivalIsAccepted(m, c);
    SlipArmsTheDead(m, m.(claimed := true), c.head);
  }

  /** The second player is dead and owns a live tank, counted as placed, and setup goes on. */
  predicate DeadButArmed(m: Match) {
    && |m.alive| == 4 && !m.alive[1] && m.phase == Setup && m.remaining == 2 && m.placedTotal == 1
    && m.board.Slotted() && |m.board.players| == 4 && LiveTanks(m.board, 1) > 0
  }

  lemma DeadPlayerPlaces(m: Match, c: Command)
    requires m.Shaped() && DeadToMove(m)
    requires c.head.kind == Place && c.head.sender == 1 && c.head.tankId == c.head.first == c.head.second == 0
    ensures DeadButArmed(Step(m, Deliver(1, c, 1)))
  {
    DeadPlayerSlips(m, c.head);
    ArrivalArms(m, c);
  }

  /** The second player forfeits out of turn, the first one in turn; the turn left open goes to the
      second player, who is dead and places a tank. */
  lemma SetupCanArmTheDead(m: Match, c: Command)
    requires m == OtherStart() && c == Command(CommandHead(1, Place, 0, 0, 0), 0)
    ensures Initial(m) && Sane(m)
    ensures var events := [RunTurn] + ([Forfeit(1)] + ([Forfeit(0)] + ([Deliver(1, c, 1)] + [])));
            CanRun(m, events) && DeadButArmed(After(m, events))
  {
    ToFirstOfFour(m);
    InitialIsSane(m);
    var m1 := Step(m, RunTurn);
    StepIsSane(m, RunTurn);
    ArmTheDeadFrom(m1, c, 1, 0);
    RunOn(m, RunTurn, m1, [Forfeit(1)] + ([Forfeit(0)] + ([Deliver(1, c, 1)] + [])));
  }

  lemma ArmTheDeadFrom(m: Match, c: Command, p: nat, q: nat)
    requires Sane(m) && FirstOfFour(m, 4) && m.cur == 0 && m.alive[0] && m.alive[1] && p == 1 && q == 0
    requires c.head.kind == Place && c.head.sender == 1 && c.head.tankId == c.head.first == c.head.second == 0
    ensures var events := [Forfeit(p)] + ([Forfeit(q)] + ([Deliver(p, c, 1)] + []));
            CanRun(m, events) && DeadButArmed(After(m, events))
  {
    SecondLeaves(m, p);
    var m2 := Step(m, Forfeit(p));
    StepIsSane(m, Forfeit(p));
    FirstPasses(m2, q);
    var m3 := Step(m2, Forfeit(q));
    StepIsSane(m2, Forfeit(q));
    DeadPlayerPlaces(m3, c);
    StepIsSane(m3, Deliver(p, c, 1));
    RunOn(m3, Deliver(p, c, 1), Step(m3, Deliver(p, c, 1)), []);
    RunOn(m2, Forfeit(q), m3, [Deliver(p, c, 1)] + []);
    RunOn(m, Forfeit(p), m2, [Forfeit(q)] + ([Deliver(p, c, 1)] + []));
  }
}
