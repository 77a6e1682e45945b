/** One match on a lane of four flat cells, two players with two tanks each, as a run of the match state
    machine: start_turns open the turns, and each player's commands are delivered and accepted in them.
    It shows that the three exceptions the theorems name do occur: a shot at a tank that is not at full
    health is not undone exactly, a tank can stand where a destroyed tank of a living player lies, and a
    shot can meet a friendly tank first. */
module Duels {
  import opened Basics
  import opened Boards
  import opened Commands
  import opened Eliminations
  import opened Matches
  import opened Ledger
  import opened Fairness
  import opened Overruns
  import opened Replay
  import opened Fidelity
  import opened Anchors

  ghost predicate Lane(b: Board) {
    && Ready(b) && b.Anchored() && b.width == 4 && b.height == 1 && b.numTanks == 2 && |b.players| == 2
    && b.mask == [0, 1, 0, 1] && forall c :: 0 <= c < 4 ==> b.cells[c].kind == Flat
  }

  // ---------------------------------------------------------------- setup

  function EmptyLane(): Board {
    NewBoard(4, 1, 2, 2, [Flat, Flat, Flat, Flat], [0, 1, 0, 1])
  }

  /** The tank of the k-th placement. */
  function Id(k: nat): nat {
    if k == 0 then 0 else if k == 1 then 2 else if k == 2 then 1 else 3
  }

  /** Who makes it. */
  function Owner(k: nat): u8 {
    if k == 0 || k == 2 then 0 else 1
  }

  /** How many of the first k placements are the player's. */
  function PlacedOf(k: nat, player: nat): nat {
    if player == 0 then (if k == 0 then 0 else if k <= 2 then 1 else 2)
    else (if k <= 1 then 0 else if k <= 3 then 1 else 2)
  }

  predicate Stands(b: Board, k: nat) {
    k < 4 && Id(k) < |b.tanks|
    && b.tanks[Id(k)] == Tank(Vec2(k, 0), 2, 2, Id(k), INITIAL_HEALTH, false, true, Owner(k))
  }

  /** The first k cells hold one tank each, all facing east, of the two players in turn. */
  ghost predicate Lined(b: Board, k: nat) {
    && Lane(b) && b.players[0].placed == PlacedOf(k, 0) && b.players[1].placed == PlacedOf(k, 1)
    && (forall i :: 0 <= i < k <= 4 ==> Stands(b, i))
    && (forall i :: k <= i < 4 ==> b.cells[i].occupant == NOTHING)
  }

  lemma LaneIsEmpty(b: Board)
    requires b == EmptyLane()
    ensures Lined(b, 0)
  {
    NewBoardIsSound(4, 1, 2, 2, [Flat, Flat, Flat, Flat], [0, 1, 0, 1]);
  }

  lemma LineGrows(b: Board, k: nat, b': Board)
    requires Lined(b, k) && k < 4 && Lane(b') && Stands(b', k)
    requires forall i :: 0 <= i < 4 && i != Id(k) ==> b'.tanks[i] == b.tanks[i]
    requires forall i :: 0 <= i < 4 && i != k ==> b'.cells[i] == b.cells[i]
    requires forall p :: 0 <= p < 2 ==> b'.players[p].placed == b.players[p].placed + (if p == Owner(k) then 1 else 0)
    ensures Lined(b', k + 1)
  {
    forall i | 0 <= i < k
      ensures Stands(b', i)
    {
      assert Stands(b, i) && Id(i) != Id(k);
    }
  }

  lemma LinesUp(b: Board, k: nat, c: CommandHead)
    requires Lined(b, k) && k < 4 && c == CommandHead(Owner(k), Place, 2, k, 0)
    ensures var o := ServerApply(b, true, c); o.Applied? && Lined(o.board, k + 1)
  {
    PlacesNext(b, k, c);
    ServerKeepsBoard(b, true, c);
    LineGrows(b, k, ServerApply(b, true, c).board);
  }

  /** The slot a placement takes on the lane. */
  lemma NextSlot(b: Board, k: nat, player: nat)
    requires Lined(b, k) && k < 4 && player == Owner(k)
    ensures b.players[player].placed == PlacedOf(k, player)
    ensures Slot(b.numTanks, player, b.players[player].placed) == Id(k)
    ensures Id(k) < |b.tanks| && b.tanks[Id(k)] == Unplaced(Id(k))
  {
    assert b.GoodPlayer(player);
    SlotFits(b, player, b.players[player].placed);
    assert b.GoodTank(Id(k));
  }

  lemma NextStands(b: Board, k: nat, pos: Vec2, player: u8)
    requires Lined(b, k) && k < 4 && player == Owner(k) && pos == Vec2(k, 0) && CanPlace(b, pos, player)
    ensures PlaceTank(b, pos, player, 2).tanks ==
            b.tanks[Id(k) := Tank(pos, 2, 2, Id(k), INITIAL_HEALTH, false, true, player)]
  {
    NextSlot(b, k, player);
    assert b.Idx(pos) == k && b.At(pos).kind == Flat;
  }

  lemma PlacesNext(b: Board, k: nat, c: CommandHead)
    requires Lined(b, k) && k < 4 && c == CommandHead(Owner(k), Place, 2, k, 0)
    ensures var o := ServerApply(b, true, c);
            && o.Applied? && Stands(o.board, k) && |o.board.tanks| == |b.tanks| && |o.board.cells| == |b.cells|
            && |o.board.players| == 2
            && (forall i :: 0 <= i < 4 && i != Id(k) ==> o.board.tanks[i] == b.tanks[i])
            && (forall i :: 0 <= i < 4 && i != k ==> o.board.cells[i] == b.cells[i])
            && (forall p :: 0 <= p < 2 ==>
                  o.board.players[p].placed == b.players[p].placed + (if p == Owner(k) then 1 else 0))
  {
    assert b.Idx(Target(c)) == k && b.mask[k] == Owner(k);
    NextSlot(b, k, c.sender);
    PlacementApplies(b, c);
    NextStands(b, k, Target(c), c.sender);
  }

  // ---------------------------------------------------------------- play

  /** The first player's tank 0 at column x, facing east; the second player's tank 2 beside the first
      cell with so much health; the other two at the far end. */
  ghost predicate Fighting(b: Board, x: u8, health: u8, loaded: bool) {
    && Lane(b)
    && b.tanks[0].pos == Vec2(x, 0) && b.tanks[0].direction == b.tanks[0].barrel == 2 && b.tanks[0].loaded == loaded
    && b.tanks[2].pos == Vec2(1, 0) && b.tanks[2].health == health
    && b.tanks[1].pos == Vec2(2, 0) && b.tanks[3].pos == Vec2(3, 0)
    && (forall i :: 0 <= i < 4 ==> b.tanks[i].owner == i / 2 && (i != 2 ==> b.tanks[i].health > 0))
  }

  lemma LinedIsFighting(b: Board)
    requires Lined(b, 4)
    ensures Fighting(b, 0, INITIAL_HEALTH, true)
  {
    assert Stands(b, 0) && Stands(b, 1) && Stands(b, 2) && Stands(b, 3);
  }

  /** A shot east meets the live tank on the next cell. */
  lemma MeetsNext(b: Board, x: u8, v: u8)
    requires Lane(b) && x < 3 && v < 4 && b.tanks[0].pos == Vec2(x, 0) && b.tanks[0].barrel == 2
    requires b.tanks[v].pos == Vec2(x + 1, 0) && b.tanks[v].health > 0
    ensures CanShoot(b, 0) && Victim(b, 0) == Some(v)
  {
    assert Ahead(b, Vec2(x, 0), 2, 1) == Some(Vec2(x + 1, 0));
    assert b.At(b.tanks[v].pos).occupant == v;
  }

  lemma Hits(b: Board, h: u8, c: CommandHead)
    requires Fighting(b, 0, h, true) && h > 0 && c.kind == Fire && c.sender == 0 && c.tankId == 0
    ensures var o := ServerApply(b, false, c); o.Applied? && Fighting(o.board, 0, h - 1, false)
  {
    MeetsNext(b, 0, 2);
    ServerKeepsBoard(b, false, c);
  }

  lemma Reloads(b: Board, x: u8, h: u8, c: CommandHead)
    requires Fighting(b, x, h, false) && c.kind == Load && c.sender == 0 && c.tankId == 0
    ensures var o := ServerApply(b, false, c); o.Applied? && Fighting(o.board, x, h, true)
  {
    ServerKeepsBoard(b, false, c);
  }

  /** The second player turns its last tank. */
  lemma Idles(b: Board, x: u8, h: u8, loaded: bool, c: CommandHead)
    requires Fighting(b, x, h, loaded) && c.kind == RotateTank && c.sender == 1 && c.tankId == 3
    ensures var o := ServerApply(b, false, c); o.Applied? && Fighting(o.board, x, h, loaded)
  {
    ServerKeepsBoard(b, false, c);
  }

  /** Once its tank is destroyed, the next cell is free. */
  lemma DrivesOn(b: Board, loaded: bool, c: CommandHead)
    requires Fighting(b, 0, 0, loaded) && c.kind == CommandType.Move && c.sender == 0 && c.tankId == 0 && c.first == 0
    ensures var o := ServerApply(b, false, c); o.Applied? && Fighting(o.board, 1, 0, loaded)
  {
    assert Ahead(b, Vec2(0, 0), 2, 1) == Some(Vec2(1, 0));
    assert b.cells[1].occupant == NOTHING;
    ServerKeepsBoard(b, false, c);
  }

  // ---------------------------------------------------------------- a turn of the match

  /** Who sends command k: one placement each in turn, then three moves each. */
  function Mover(k: nat): nat {
    if k < 4 then k % 2 else (k - 4) / 3 % 2
  }

  ghost predicate BothArmed(b: Board) {
    b.Slotted() && |b.players| == 2 && LiveTanks(b, 0) > 0 && LiveTanks(b, 1) > 0
  }

  /** Nobody is out, nothing is queued, and it is time for command k. */
  ghost predicate Timely(m: Match, k: nat)
    requires m.Shaped()
  {
    && !m.corrupt && m.remaining == 2 && m.board.numTanks == 2 && |m.alive| == 2 && m.alive[0] && m.alive[1]
    && m.queues[0] == m.queues[1] == [] && m.cur == (if k == 4 && m.phase == Setup then 0 else Mover(k))
    && (k < 4 ==> m.phase == Setup) && (k > 4 ==> m.phase == Play)
    && (if m.phase == Setup then m.placedTotal == k && m.fuel == TURN_PLAYER_FUEL
        else m.fuel == TURN_PLAYER_FUEL - (k - 4) % 3)
  }

  /** The match waits for the start_turn before command k. */
  ghost predicate Waiting(m: Match, k: nat)
    requires m.Shaped()
  {
    Timely(m, k) && m.pending == 1 && (k == 4 ==> m.phase == Setup)
  }

  /** The match waits for command k of the player whose turn it is. */
  ghost predicate Listening(m: Match, k: nat)
    requires m.Shaped()
  {
    Timely(m, k) && m.pending == 0 && !m.claimed && (k == 4 ==> m.phase == Play)
  }

  ghost predicate Opens(m: Match, m1: Match, k: nat)
    requires m.Shaped()
  {
    && m1.Shaped() && Listening(m1, k) && m1.board == m.board && m1.history == m.history
    && m1.turnId == m.turnId + 1
  }

  lemma PlainTurnOpens(m: Match, k: nat)
    requires m.Shaped() && Waiting(m, k) && k != 4
    ensures Opens(m, Step(m, RunTurn), k)
  {
    TurnOpens(m);
  }

  lemma ArmedStay(m: Match)
    requires m.Shaped() && m.phase == Play && |m.alive| == 2 && BothArmed(m.board)
    ensures Views(m, 0) == m
  {
    ViewsIdle(m, 0);
  }

  /** The start_turn that ends setup. */
  lemma FirstTurnOpens(m: Match, k: nat)
    requires m.Shaped() && Waiting(m, k) && k == 4 && BothArmed(m.board)
    ensures Opens(m, Step(m, RunTurn), k)
  {
    ArmedStay(m.(pending := 0, turnId := m.turnId + 1, claimed := false, phase := Play, cur := 0,
                 fuel := TURN_PLAYER_FUEL));
  }

  ghost predicate Advances(m: Match, c: CommandHead, b: Board, m1: Match, next: nat) {
    m1.Shaped() && Waiting(m1, next) && m1.board == b && m1.history == m.history + [c]
  }

  lemma PlacementIsTaken(m: Match, k: nat, next: nat, c: Command)
    requires m.Shaped() && Listening(m, k) && k < 4 && next == k + 1
    requires c.head.sender == Mover(k) && c.head.kind == Place
    requires ServerApply(m.board, true, c.head).Applied?
    ensures Advances(m, c.head, ServerApply(m.board, true, c.head).board, Step(m, Deliver(Mover(k), c, m.turnId)),
                     next)
  {
    ServerKeepsBoard(m.board, true, c.head);
    PlacementArrives(m, c);
    PlacedInTime(m, k, next, c.head, ServerApply(m.board, true, c.head).board, Step(m, Deliver(Mover(k), c, m.turnId)));
  }

  lemma PlacedInTime(m: Match, k: nat, next: nat, c: CommandHead, b: Board, m1: Match)
    requires m.Shaped() && Listening(m, k) && k < 4 && next == k + 1 && Ready(b) && SameMap(m.board, b)
    requires m1 == m.(board := b, claimed := true, history := m.history + [c],
                      placedTotal := Wrap8(m.placedTotal + 1), cur := m.Next(), pending := m.pending + 1)
    ensures Advances(m, c, b, m1, next)
  {
  }

  lemma MoveIsAccepted(m: Match, c: CommandHead, b: Board)
    requires m.Shaped() && m.phase == Play && ServerApply(m.board, false, c).Applied? && |m.alive| == 2
    requires b == ServerApply(m.board, false, c).board && BothArmed(b)
    ensures Ready(b) && SameMap(m.board, b) && c.kind != Place && Accept(m, c) == Post(Record(m, c, b))
  {
    ServerKeepsBoard(m.board, false, c);
    AcceptedKind(m.board, false, c);
    ArmedStay(Record(m, c, b));
  }

  lemma RecordedInTime(m: Match, k: nat, next: nat, c: CommandHead, b: Board)
    requires m.Shaped() && Timely(m, k) && k >= 4 && next == k + 1 && m.phase == Play && m.pending == 0
    requires Ready(b) && SameMap(m.board, b) && c.kind != Place
    ensures Advances(m, c, b, Post(Record(m, c, b)), next)
  {
  }

  lemma MoveIsTaken(m: Match, k: nat, next: nat, c: Command, b: Board)
    requires m.Shaped() && Listening(m, k) && k >= 4 && next == k + 1 && c.head.sender == Mover(k)
    requires ServerApply(m.board, false, c.head).Applied? && b == ServerApply(m.board, false, c.head).board
    requires BothArmed(b)
    ensures Advances(m, c.head, b, Step(m, Deliver(Mover(k), c, m.turnId)), next)
  {
    ArrivalIsAccepted(m, c);
    MoveIsAccepted(m.(claimed := true), c.head, b);
    RecordedInTime(m.(claimed := true), k, next, c.head, b);
  }

  // ---------------------------------------------------------------- the match so far

  /** A run of the match that has come to command k, and whose history replays to the server's board. */
  ghost predicate Story(start: Match, events: seq<Event>, m: Match, k: nat) {
    && Sane(start) && CanRun(start, events) && After(start, events) == m
    && Sane(m) && Waiting(m, k) && Faithful(m, start.board)
  }

  /** Command k can be accepted, and everybody still has a tank then. */
  ghost predicate Plays(m: Match, k: nat, c: CommandHead, b: Board)
    requires m.Shaped()
  {
    && c.sender == Mover(k) && (c.kind == Place <==> k < 4)
    && ServerApply(m.board, k < 4, c).Applied? && b == ServerApply(m.board, k < 4, c).board
    && (k >= 4 ==> BothArmed(m.board) && BothArmed(b))
  }

  lemma TurnComes(m: Match, k: nat)
    requires m.Shaped() && Waiting(m, k) && (k >= 4 ==> BothArmed(m.board))
    ensures Opens(m, Step(m, RunTurn), k)
  {
    if k == 4 {
      FirstTurnOpens(m, k);
    } else {
      PlainTurnOpens(m, k);
    }
  }

  lemma CommandComes(m: Match, k: nat, next: nat, c: CommandHead, b: Board)
    requires m.Shaped() && Listening(m, k) && Plays(m, k, c, b) && next == k + 1
    ensures Advances(m, c, b, Step(m, Deliver(Mover(k), Command(c, 0), m.turnId)), next)
    ensures CommandOn(m, Step(m, Deliver(Mover(k), Command(c, 0), m.turnId)), c)
  {
    if k < 4 {
      PlacementIsTaken(m, k, next, Command(c, 0));
    } else {
      MoveIsTaken(m, k, next, Command(c, 0), b);
    }
  }

  lemma TwoMore(start: Match, events: seq<Event>, m: Match, e: Event, e': Event)
    requires Sane(start) && CanRun(start, events) && After(start, events) == m && Sane(m) && Enabled(m, e)
    requires Sane(Step(m, e)) && Enabled(Step(m, e), e')
    ensures CanRun(start, events + [e] + [e']) && After(start, events + [e] + [e']) == Step(Step(m, e), e')
  {
    RunThen(start, events, e);
    RunThen(start, events + [e], e');
  }

  /** The posted start_turn runs, and the command of the player whose turn it opens is delivered; the
      replay keeps up unless the command is a shot that meets a friendly tank first. */
  lemma Round(start: Match, events: seq<Event>, m: Match, k: nat, next: nat, c: CommandHead, b: Board)
    returns (events': seq<Event>, m': Match)
    requires Story(start, events, m, k) && Plays(m, k, c, b) && next == k + 1
    ensures CanRun(start, events') && After(start, events') == m' && Sane(m') && Waiting(m', next) && m'.board == b
    ensures Faithful(m', start.board) <==> !FriendlyFirst(m.board, c)
    ensures m'.history == m.history + [c]
  {
    TurnComes(m, k);
    var m1 := Step(m, RunTurn);
    StepIsSane(m, RunTurn);
    CommandComes(m1, k, next, c, b);
    var e := Deliver(Mover(k), Command(c, 0), m1.turnId);
    m' := Step(m1, e);
    StepIsSane(m1, e);
    CommandFaithfulIff(m1, m', c, start.board);
    TwoMore(start, events, m, RunTurn, e);
    events' := events + [RunTurn] + [e];
  }

  // ---------------------------------------------------------------- the match

  function Kickoff(): Match {
    Match(EmptyLane(), [true, true], [0, 0], 0, 2, 0, TURN_PLAYER_FUEL, Setup, 0, [], 0, false,
          [[], []], 1, None, false, [])
  }

  ghost predicate Begins(start: Match) {
    Story(start, [], start, 0) && Lined(start.board, 0)
  }

  lemma KickoffBegins(start: Match)
    requires start == Kickoff()
    ensures Initial(start) && Begins(start)
  {
    LaneIsEmpty(start.board);
    InitialIsSane(start);
  }

  /** Everybody still has a tank. */
  lemma FightersAreArmed(b: Board, x: u8, h: u8, loaded: bool)
    requires Fighting(b, x, h, loaded)
    ensures BothArmed(b)
  {
    LiveIsCounted(b, 1);
    LiveIsCounted(b, 3);
  }

  /** A placement in setup. */
  lemma Places(start: Match, events: seq<Event>, m: Match, k: nat, next: nat) returns (events': seq<Event>, m': Match)
    requires Story(start, events, m, k) && Lined(m.board, k) && k < 4 && next == k + 1
    ensures Story(start, events', m', next) && Lined(m'.board, next)
  {
    var c := CommandHead(Owner(k), Place, 2, k, 0);
    LinesUp(m.board, k, c);
    events', m' := Round(start, events, m, k, next, c, ServerApply(m.board, true, c).board);
  }

  lemma TwoPlaced(start: Match) returns (events: seq<Event>, m: Match)
    requires Begins(start)
    ensures Story(start, events, m, 2) && Lined(m.board, 2)
  {
    events, m := Places(start, [], start, 0, 1);
    events, m := Places(start, events, m, 1, 2);
  }

  lemma AllPlaced(start: Match) returns (events: seq<Event>, m: Match)
    requires Begins(start)
    ensures Story(start, events, m, 4) && Lined(m.board, 4)
  {
    events, m := TwoPlaced(start);
    events, m := Places(start, events, m, 2, 3);
    events, m := Places(start, events, m, 3, 4);
  }

  /** The match has come to command k of play, and the board is that. */
  ghost predicate Scene(start: Match, events: seq<Event>, m: Match, k: nat, x: u8, h: u8, loaded: bool) {
    k >= 4 && Story(start, events, m, k) && Fighting(m.board, x, h, loaded)
  }

  /** A command in play that is no shot at a friend. */
  lemma PlayGoesOn(start: Match, events: seq<Event>, m: Match, k: nat, next: nat, c: CommandHead,
                   x: u8, h: u8, loaded: bool, x': u8, h': u8, loaded': bool)
    returns (events': seq<Event>, m': Match)
    requires Scene(start, events, m, k, x, h, loaded) && c.sender == Mover(k) && c.kind != Place && next == k + 1
    requires ServerApply(m.board, false, c).Applied? && Fighting(ServerApply(m.board, false, c).board, x', h', loaded')
    requires !FriendlyFirst(m.board, c)
    ensures Scene(start, events', m', next, x', h', loaded')
  {
    var b := ServerApply(m.board, false, c).board;
    FightersAreArmed(m.board, x, h, loaded);
    FightersAreArmed(b, x', h', loaded');
    events', m' := Round(start, events, m, k, next, c, b);
  }

  lemma Shoots(start: Match, events: seq<Event>, m: Match, k: nat, next: nat, h: u8)
    returns (events': seq<Event>, m': Match)
    requires Scene(start, events, m, k, 0, h, true) && h > 0 && Mover(k) == 0 && next == k + 1
    ensures Scene(start, events', m', next, 0, h - 1, false)
  {
    var c := CommandHead(0, Fire, 0, 0, 0);
    Hits(m.board, h, c);
    MeetsNext(m.board, 0, 2);
    events', m' := PlayGoesOn(start, events, m, k, next, c, 0, h, true, 0, h - 1, false);
  }

  lemma LoadsAgain(start: Match, events: seq<Event>, m: Match, k: nat, next: nat, x: u8, h: u8)
    returns (events': seq<Event>, m': Match)
    requires Scene(start, events, m, k, x, h, false) && Mover(k) == 0 && next == k + 1
    ensures Scene(start, events', m', next, x, h, true)
  {
    var c := CommandHead(0, Load, 0, 0, 0);
    Reloads(m.board, x, h, c);
    events', m' := PlayGoesOn(start, events, m, k, next, c, x, h, false, x, h, true);
  }

  lemma DrivesEast(start: Match, events: seq<Event>, m: Match, k: nat, next: nat)
    returns (events': seq<Event>, m': Match)
    requires Scene(start, events, m, k, 0, 0, false) && Mover(k) == 0 && next == k + 1
    ensures Scene(start, events', m', next, 1, 0, false)
  {
    var c := CommandHead(0, CommandType.Move, 0, 0, 0);
    DrivesOn(m.board, false, c);
    events', m' := PlayGoesOn(start, events, m, k, next, c, 0, 0, false, 1, 0, false);
  }

  lemma TurnsOnce(start: Match, events: seq<Event>, m: Match, k: nat, next: nat, x: u8, h: u8)
    returns (events': seq<Event>, m': Match)
    requires Scene(start, events, m, k, x, h, false) && Mover(k) == 1 && next == k + 1
    ensures Scene(start, events', m', next, x, h, false)
  {
    var c := CommandHead(1, RotateTank, 3, 0, 0);
    Idles(m.board, x, h, false, c);
    events', m' := PlayGoesOn(start, events, m, k, next, c, x, h, false, x, h, false);
  }

  /** The second player's three moves. */
  lemma TurnsRound(start: Match, events: seq<Event>, m: Match, k: nat, k1: nat, k2: nat, k3: nat, x: u8, h: u8)
    returns (events': seq<Event>, m': Match)
    requires Scene(start, events, m, k, x, h, false) && k1 == k + 1 && k2 == k1 + 1 && k3 == k2 + 1
    requires Mover(k) == Mover(k1) == Mover(k2) == 1
    ensures Scene(start, events', m', k3, x, h, false)
  {
    events', m' := TurnsOnce(start, events, m, k, k1, x, h);
    events', m' := TurnsOnce(start, events', m', k1, k2, x, h);
    events', m' := TurnsOnce(start, events', m', k2, k3, x, h);
  }

  lemma Movers()
    ensures forall k :: 4 <= k < 7 || 10 <= k < 13 || k == 16 || k == 17 ==> Mover(k) == 0
    ensures forall k :: 7 <= k < 10 || 13 <= k < 16 ==> Mover(k) == 1
  {
  }

  lemma ToPlay(start: Match) returns (events: seq<Event>, m: Match)
    requires Begins(start)
    ensures Scene(start, events, m, 4, 0, INITIAL_HEALTH, true)
  {
    events, m := AllPlaced(start);
    LinedIsFighting(m.board);
  }

  lemma ToFirstHit(start: Match) returns (events: seq<Event>, m: Match)
    requires Begins(start)
    ensures Scene(start, events, m, 5, 0, 2, false)
  {
    Movers();
    events, m := ToPlay(start);
    events, m := Shoots(start, events, m, 4, 5, INITIAL_HEALTH);
  }

  /** After a shot and a reload the victim has lost one point of health. */
  lemma ToWounded(start: Match) returns (events: seq<Event>, m: Match)
    requires Begins(start)
    ensures Scene(start, events, m, 6, 0, 2, true)
  {
    Movers();
    events, m := ToFirstHit(start);
    events, m := LoadsAgain(start, events, m, 5, 6, 0, 2);
  }

  /** The second shot ends the turn. */
  lemma ToSecondHit(start: Match) returns (events: seq<Event>, m: Match)
    requires Begins(start)
    ensures Scene(start, events, m, 7, 0, 1, false)
  {
    Movers();
    events, m := ToWounded(start);
    events, m := Shoots(start, events, m, 6, 7, 2);
  }

  /** The other player's three moves change nothing here. */
  lemma ToSecondTurn(start: Match) returns (events: seq<Event>, m: Match)
    requires Begins(start)
    ensures Scene(start, events, m, 10, 0, 1, false)
  {
    Movers();
    events, m := ToSecondHit(start);
    events, m := TurnsRound(start, events, m, 7, 8, 9, 10, 0, 1);
  }

  lemma ToThirdShot(start: Match) returns (events: seq<Event>, m: Match)
    requires Begins(start)
    ensures Scene(start, events, m, 11, 0, 1, true)
  {
    Movers();
    events, m := ToSecondTurn(start);
    events, m := LoadsAgain(start, events, m, 10, 11, 0, 1);
  }

  lemma ToDestroyed(start: Match) returns (events: seq<Event>, m: Match)
    requires Begins(start)
    ensures Scene(start, events, m, 12, 0, 0, false)
  {
    Movers();
    events, m := ToThirdShot(start);
    events, m := Shoots(start, events, m, 11, 12, 1);
  }

  /** The third shot has destroyed the tank, and the shooter moves onto its cell. */
  lemma ToOverrun(start: Match) returns (events: seq<Event>, m: Match)
    requires Begins(start)
    ensures Scene(start, events, m, 13, 1, 0, false)
  {
    Movers();
    events, m := ToDestroyed(start);
    events, m := DrivesEast(start, events, m, 12, 13);
  }

  lemma ToThirdTurn(start: Match) returns (events: seq<Event>, m: Match)
    requires Begins(start)
    ensures Scene(start, events, m, 16, 1, 0, false)
  {
    Movers();
    events, m := ToOverrun(start);
    events, m := TurnsRound(start, events, m, 13, 14, 15, 16, 1, 0);
  }

  /** There its own other tank is next in line. */
  lemma ToFriend(start: Match) returns (events: seq<Event>, m: Match)
    requires Begins(start)
    ensures Scene(start, events, m, 17, 1, 0, true)
  {
    Movers();
    events, m := ToThirdTurn(start);
    events, m := LoadsAgain(start, events, m, 16, 17, 1, 0);
  }

  // ---------------------------------------------------------------- the three exceptions

  /** A run from a fresh match. */
  ghost predicate Reached(start: Match, events: seq<Event>, m: Match) {
    Initial(start) && Sane(start) && CanRun(start, events) && After(start, events) == m && Sane(m)
  }

  lemma WoundedIsRepaired(b: Board, c: CommandHead)
    requires Fighting(b, 0, 2, true) && c.kind == Fire && c.sender == 0 && c.tankId == 0
    ensures Recorded(b, [c]) && !AllWhole(b, RepairedIn(b, [c]))
  {
    MeetsNext(b, 0, 2);
    Hits(b, 2, c);
    StepFidelity(b, false, c);
    ReplayKeepsBoard(b, c);
    var cmds := [c];
    assert cmds[1..] == [];
    assert RepairedBy(b, c) == {2} && 2 in RepairedIn(b, cmds);
    assert b.tanks[2].health != INITIAL_HEALTH;
  }

  /** A shot at a tank that has already lost health: one step forward and one step back do not lead to
      the same board. */
  lemma RepairOvershoots(start: Match) returns (events: seq<Event>, m: Match, c: CommandHead)
    requires start == Kickoff()
    ensures Reached(start, events, m) && ServerApply(m.board, false, c).Applied?
    ensures Recorded(m.board, [c]) && var r := Forward(m.board, [c]);
            Backward(r.board, [c], r.statuses) != Some(m.board)
  {
    KickoffBegins(start);
    events, m := ToWounded(start);
    c := CommandHead(0, Fire, 0, 0, 0);
    Hits(m.board, 2, c);
    WoundedIsRepaired(m.board, c);
    UndoRestoresIff(m.board, [c]);
  }

  lemma StandsOnTheDead(b: Board, loaded: bool)
    requires Fighting(b, 1, 0, loaded)
    ensures Overrun(b, 1) && LiveTanks(b, 1) > 0
  {
    PlacedIdsAreOwn(b, 1);
    assert b.GoodPlayer(1) && Slot(b.numTanks, 1, 0) == 2 && Slot(b.numTanks, 1, 1) == 3;
    var ids := PlacedIds(b, 1);
    assert ids[0] == 2 && b.tanks[0].pos == b.tanks[ids[0]].pos && 0 !in ids;
    assert b.players[1].tankIds[1] == 3;
  }

  lemma ForfeitUnanchors(m: Match, p: nat)
    requires m.Shaped() && !m.corrupt && m.phase == Play && m.board.Anchored() && p < |m.alive| && m.alive[p]
    requires Overrun(m.board, p)
    ensures !Step(m, Forfeit(p)).board.Anchored()
  {
    StepAnchoredIff(m, Forfeit(p));
  }

  /** A player with a live tank left, one of whose destroyed tanks lies under a tank of the other player,
      forfeits: a live tank is no longer named by its cell. */
  lemma EliminationUnanchors(start: Match) returns (events: seq<Event>, m: Match)
    requires start == Kickoff()
    ensures Reached(start, events, m) && m.board.Anchored() && 1 < |m.board.players|
    ensures LiveTanks(m.board, 1) > 0 && !Step(m, Forfeit(1)).board.Anchored()
  {
    KickoffBegins(start);
    events, m := ToOverrun(start);
    StandsOnTheDead(m.board, false);
    ForfeitUnanchors(m, 1);
  }

  /** One more shot, and the replay of a history that was faithful so far leaves the server's board. */
  lemma ReplayDiverges(start: Match)
    returns (events: seq<Event>, m: Match, longer: seq<Event>, m': Match)
    requires start == Kickoff()
    ensures Reached(start, events, m) && Reached(start, longer, m')
    ensures Faithful(m, start.board) && |m'.history| == |m.history| + 1 && m'.history[..|m.history|] == m.history
    ensures FriendlyFirst(m.board, m'.history[|m.history|]) && !Faithful(m', start.board)
  {
    KickoffBegins(start);
    events, m := ToFriend(start);
    longer, m' := FriendIsShot(start, events, m);
  }

  lemma FriendIsShot(start: Match, events: seq<Event>, m: Match) returns (longer: seq<Event>, m': Match)
    requires Scene(start, events, m, 17, 1, 0, true)
    ensures CanRun(start, longer) && After(start, longer) == m' && Sane(m') && !Faithful(m', start.board)
    ensures |m'.history| == |m.history| + 1 && m'.history[..|m.history|] == m.history
    ensures FriendlyFirst(m.board, m'.history[|m.history|])
  {
    var c := CommandHead(0, Fire, 0, 0, 0);
    MeetsNext(m.board, 1, 1);
    Movers();
    SpentShot(m.board, c);
    FightersAreArmed(m.board, 1, 0, true);
    FightersAreArmed(ServerApply(m.board, false, c).board, 1, 0, false);
    longer, m' := Round(start, events, m, 17, 18, c, ServerApply(m.board, false, c).board);
  }

  /** The friend stops the shot unharmed. */
  lemma SpentShot(b: Board, c: CommandHead)
    requires Fighting(b, 1, 0, true) && c.kind == Fire && c.sender == 0 && c.tankId == 0
    ensures var o := ServerApply(b, false, c); o.Applied? && Fighting(o.board, 1, 0, false) && FriendlyFirst(b, c)
  {
    MeetsNext(b, 1, 1);
    ServerKeepsBoard(b, false, c);
  }
}
