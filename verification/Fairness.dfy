/** Fair play over whole runs: setup ends exactly when every living player has placed its tanks, the
    history is cut into turns, and the dead own no live tank.  A skip and an in-turn elimination move on
    to the next player without claiming the turn, so a command can be taken before the start_turn they
    posted.  In play that does no harm.  In setup it can: `Slips` says exactly when. */
module Fairness {
  import opened Basics
  import opened Boards
  import opened Commands
  import opened Eliminations
  import opened Matches
  import opened Ledger

  /** The event hands the current player an unclaimed turn. */
  predicate Accepting(m: Match, e: Event)
    requires |m.queues| == |m.alive|
  {
    && e.Deliver? && e.player < |m.alive| && m.phase != Concluded && e.turn == m.turnId
    && |m.queues[e.player]| < MAX_QUEUE_SIZE && e.player == m.cur && !m.claimed
  }

  /** The queue of the sender once an accepted command is in it. */
  function QueueWith(m: Match, e: Event): (q: seq<Command>)
    requires e.Deliver? && e.player < |m.queues| && e.player < 256
    ensures q != []
  {
    m.queues[e.player] + [e.command.(head := e.command.head.(sender := e.player))]
  }

  /** A placement that passes every check, in the name of a current player who is dead or has placed
      all of its tanks. */
  predicate Slipping(m: Match, c: CommandHead)
    requires m.Shaped()
  {
    && m.phase == Setup && c.kind == Place && m.board.InBounds(Target(c)) && CheckPlacement(m.board, Target(c), m.cur)
    && c.tankId < 8 && (!m.alive[m.cur] || m.board.players[m.cur].placed == m.board.numTanks)
  }

  /** The event hands the current player an unclaimed turn, and the best command in the queue slips in. */
  predicate Slips(m: Match, e: Event)
    requires m.Shaped()
  {
    Accepting(m, e) && var q := QueueWith(m, e); Slipping(m, q[Top(q)].head)
  }

  /** start_turn has opened this turn for its living current player. */
  predicate Opened(m: Match)
    requires m.cur < |m.alive|
  {
    m.alive[m.cur] && m.armed == Some((m.cur, m.turnId))
  }

  // ---------------------------------------------------------------- setup

  function PlacedCounts(m: Match): seq<int> {
    seq(|m.board.players|, p requires 0 <= p < |m.board.players| => m.board.players[p].placed)
  }

  function SumAlive(alive: seq<bool>, placed: seq<int>): int
    requires |alive| == |placed|
  {
    if alive == [] then 0
    else
      var n := |alive| - 1;
      SumAlive(alive[..n], placed[..n]) + (if alive[n] then placed[n] else 0)
  }

  lemma {:induction false} SumFall(alive: seq<bool>, placed: seq<int>, p: nat)
    requires |alive| == |placed| && p < |alive| && alive[p]
    ensures SumAlive(alive[p := false], placed) == SumAlive(alive, placed) - placed[p]
  {
    var n := |alive| - 1;
    if p == n {
      assert alive[p := false][..n] == alive[..n];
    } else {
      assert alive[p := false][..n] == alive[..n][p := false];
      SumFall(alive[..n], placed[..n], p);
    }
  }

  lemma {:induction false} SumPlace(alive: seq<bool>, placed: seq<int>, p: nat)
    requires |alive| == |placed| && p < |alive| && alive[p]
    ensures SumAlive(alive, placed[p := placed[p] + 1]) == SumAlive(alive, placed) + 1
  {
    var n := |alive| - 1;
    var more := placed[p := placed[p] + 1];
    if p == n {
      assert more[..n] == placed[..n];
    } else {
      assert more[..n] == placed[..n][p := placed[p] + 1];
      SumPlace(alive[..n], placed[..n], p);
    }
  }

  /** num for each living player. */
  function Quota(alive: seq<bool>, num: nat): nat {
    if alive == [] then 0
    else Quota(alive[..|alive| - 1], num) + (if alive[|alive| - 1] then num else 0)
  }

  lemma {:induction false} QuotaIsProduct(alive: seq<bool>, num: nat)
    ensures Quota(alive, num) == Count(alive) * num <= |alive| * num
  {
    if alive != [] {
      var n := |alive| - 1;
      QuotaIsProduct(alive[..n], num);
      assert (Count(alive[..n]) + 1) * num == Count(alive[..n]) * num + num;
      assert (n + 1) * num == n * num + num;
    }
  }

  lemma {:induction false} SumReachesQuota(alive: seq<bool>, placed: seq<int>, num: nat)
    requires |alive| == |placed| && forall p :: 0 <= p < |placed| ==> 0 <= placed[p] <= num
    ensures 0 <= SumAlive(alive, placed) <= Quota(alive, num)
    ensures SumAlive(alive, placed) == Quota(alive, num) <==>
            forall p :: 0 <= p < |alive| && alive[p] ==> placed[p] == num
  {
    if alive != [] {
      var n := |alive| - 1;
      SumReachesQuota(alive[..n], placed[..n], num);
      assert forall p :: 0 <= p < n ==> alive[..n][p] == alive[p] && placed[..n][p] == placed[p];
    }
  }

  /** The total is num per living player exactly when every living player has placed num. */
  lemma SumFull(alive: seq<bool>, placed: seq<int>, num: nat)
    requires |alive| == |placed| && forall p :: 0 <= p < |placed| ==> 0 <= placed[p] <= num
    ensures 0 <= SumAlive(alive, placed) <= Count(alive) * num <= |alive| * num
    ensures SumAlive(alive, placed) == Count(alive) * num <==>
            forall p :: 0 <= p < |alive| && alive[p] ==> placed[p] == num
  {
    SumReachesQuota(alive, placed, num);
    QuotaIsProduct(alive, num);
  }

  /** The living players before the current one are one placement ahead. */
  ghost predicate InRound(alive: seq<bool>, placed: seq<int>, cur: nat, k: int)
    requires |alive| == |placed|
  {
    forall p {:trigger alive[p]} {:trigger placed[p]} :: 0 <= p < |alive| && alive[p] ==>
      placed[p] == if p < cur then k + 1 else k
  }

  /** The round goes on when the current player has placed a tank or is out. */
  lemma RoundGoesOn(alive: seq<bool>, placed: seq<int>, alive': seq<bool>, placed': seq<int>,
                    cur: nat, next: nat, k: int)
    requires |alive| == |placed| == |alive'| == |placed'| && cur < |alive| && InRound(alive, placed, cur, k)
    requires next == (if cur + 1 == |alive| then 0 else cur + 1)
    requires forall p :: 0 <= p < |alive| && alive'[p] ==> alive[p]
    requires forall p :: 0 <= p < |alive| && p != cur ==> placed'[p] == placed[p]
    requires alive'[cur] ==> placed'[cur] == placed[cur] + 1
    ensures exists k' :: InRound(alive', placed', next, k')
  {
    if cur + 1 == |alive| {
      assert InRound(alive', placed', next, k + 1);
    } else {
      assert InRound(alive', placed', next, k);
    }
  }

  ghost predicate SetupFair(m: Match)
    requires |m.alive| == |m.board.players|
  {
    m.phase == Setup ==>
      && m.placedTotal == SumAlive(m.alive, PlacedCounts(m))
      && exists k :: InRound(m.alive, PlacedCounts(m), m.cur, k)
  }

  /** While a turn is unclaimed and the player it was opened for lives, that player is the current
      one and, in setup, still has a tank to place. */
  ghost predicate OpenTurn(m: Match)
    requires m.Shaped()
  {
    m.phase != Concluded && m.armed.Some? && m.armed.value.1 == m.turnId && !m.claimed ==>
      var p := m.armed.value.0;
      p < |m.alive| &&
      (m.alive[p] ==> p == m.cur && (m.phase == Setup ==> m.board.players[p].placed < m.board.numTanks))
  }

  /** A player marked dead owns no live tank. */
  ghost predicate DeadMeansUnarmed(m: Match)
    requires m.Shaped()
  {
    forall p {:trigger m.alive[p]} :: 0 <= p < |m.alive| && !m.alive[p] ==> LiveTanks(m.board, p) == 0
  }

  // ---------------------------------------------------------------- turns in play

  function Senders(history: seq<CommandHead>): seq<int> {
    seq(|history|, i requires 0 <= i < |history| => history[i].sender)
  }

  function Repeat(x: int, n: int): seq<int> {
    if n <= 0 then [] else Repeat(x, n - 1) + [x]
  }

  function TurnSenders(turns: seq<Turn>): seq<int> {
    if turns == [] then []
    else TurnSenders(turns[..|turns| - 1]) + Repeat(turns[|turns| - 1].sender, turns[|turns| - 1].moves)
  }

  /** A turn records at most three moves, and fewer only if it was cut. */
  predicate GoodTurn(t: Turn) {
    0 <= t.moves <= TURN_PLAYER_FUEL && (t.moves < TURN_PLAYER_FUEL ==> t.cut)
  }

  /** The commands after the placements are the moves of the recorded turns, in order, then the n
      moves made so far in the current one. */
  ghost predicate InTurns(history: seq<CommandHead>, s: nat, turns: seq<Turn>, cur: nat, n: int) {
    PlacedFirst(history, s) && Senders(history[s..]) == TurnSenders(turns) + Repeat(cur, n)
  }

  ghost predicate PlayedInTurns(m: Match, s: nat) {
    InTurns(m.history, s, m.turns, m.cur, TURN_PLAYER_FUEL - m.fuel)
  }

  /** One more move in the current turn. */
  lemma InTurnsMove(history: seq<CommandHead>, s: nat, turns: seq<Turn>, cur: nat, n: nat, c: CommandHead)
    requires InTurns(history, s, turns, cur, n) && c.kind != Place && c.sender == cur
    ensures InTurns(history + [c], s, turns, cur, n + 1)
  {
    assert (history + [c])[s..] == history[s..] + [c];
    assert Senders(history[s..] + [c]) == Senders(history[s..]) + [c.sender];
    assert Repeat(cur, n + 1) == Repeat(cur, n) + [cur];
  }

  /** The current turn ends and another player's begins. */
  lemma InTurnsDone(history: seq<CommandHead>, s: nat, turns: seq<Turn>, cur: nat, n: nat, cut: bool, next: nat)
    requires InTurns(history, s, turns, cur, n)
    ensures InTurns(history, s, turns + [Turn(cur, n, cut)], next, 0)
  {
    var more := turns + [Turn(cur, n, cut)];
    assert more[..|more| - 1] == turns;
  }

  ghost predicate TurnStructure(m: Match)
    requires m.Shaped()
  {
    && (forall i :: 0 <= i < |m.turns| ==> GoodTurn(m.turns[i]))
    && 1 <= m.fuel <= TURN_PLAYER_FUEL
    && (m.phase == Setup ==> m.turns == [] && m.fuel == TURN_PLAYER_FUEL)
    && (m.phase != Concluded && !m.alive[m.cur] ==> m.fuel == TURN_PLAYER_FUEL)
    && (m.phase != Setup ==> exists s: nat :: PlayedInTurns(m, s))
  }

  ghost predicate Fair(m: Match) {
    && Sane(m) && !m.corrupt
    && SetupFair(m) && OpenTurn(m) && DeadMeansUnarmed(m) && TurnStructure(m)
  }

  lemma InitialIsFair(m: Match)
    requires Initial(m)
    ensures Fair(m)
  {
    InitialIsSane(m);
    SumZero(m.alive, PlacedCounts(m));
    assert InRound(m.alive, PlacedCounts(m), m.cur, 0);
  }

  lemma {:induction false} SumZero(alive: seq<bool>, placed: seq<int>)
    requires |alive| == |placed| && forall p :: 0 <= p < |placed| ==> placed[p] == 0
    ensures SumAlive(alive, placed) == 0
  {
    if alive != [] {
      SumZero(alive[..|alive| - 1], placed[..|alive| - 1]);
    }
  }

  lemma PlacedAreBounded(m: Match)
    requires m.Shaped()
    ensures forall p :: 0 <= p < |PlacedCounts(m)| ==> 0 <= PlacedCounts(m)[p] <= m.board.numTanks
    ensures 0 <= SumAlive(m.alive, PlacedCounts(m)) <= |m.alive| * m.board.numTanks < NOTHING
  {
    forall p | 0 <= p < |m.board.players|
      ensures m.board.players[p].placed <= m.board.numTanks
    {
      assert m.board.GoodPlayer(p);
    }
    SumFull(m.alive, PlacedCounts(m), m.board.numTanks);
  }

  /** Setup ends exactly when every living player has placed all of its tanks, and until then the
      counts of living players differ by at most one. */
  lemma SetupEndsExactly(m: Match)
    requires Fair(m) && m.phase == Setup
    ensures SetupOver(m) <==>
            forall p :: 0 <= p < |m.alive| && m.alive[p] ==> m.board.players[p].placed == m.board.numTanks
    ensures forall p, q :: 0 <= p < |m.alive| && 0 <= q < |m.alive| && m.alive[p] && m.alive[q] ==>
              m.board.players[p].placed <= m.board.players[q].placed + 1
  {
    PlacedAreBounded(m);
    SumFull(m.alive, PlacedCounts(m), m.board.numTanks);
    var k :| InRound(m.alive, PlacedCounts(m), m.cur, k);
    assert forall p :: 0 <= p < |m.alive| ==> PlacedCounts(m)[p] == m.board.players[p].placed;
  }

  // ---------------------------------------------------------------- live tanks under a command

  /** A command never brings a tank of somebody else back to life. */
  lemma CommandRevivesNobody(b: Board, setup: bool, c: CommandHead, q: nat)
    requires Ready(b) && q < |b.players| && q != c.sender
    requires ServerApply(b, setup, c).Applied? && LiveTanks(b, q) == 0
    ensures ServerApply(b, setup, c).board.Slotted() && LiveTanks(ServerApply(b, setup, c).board, q) == 0
  {
    ServerKeepsBoard(b, setup, c);
    var b' := ServerApply(b, setup, c).board;
    assert b.GoodPlayer(q) && b'.GoodPlayer(q);
    var ids := b.players[q].tankIds;
    assert b'.players[q] == b.players[q];
    forall j | 0 <= j < |ids| && ids[j] != NOTHING
      ensures b'.tanks[ids[j]].health <= b.tanks[ids[j]].health
    {
      assert ids[j] == Slot(b.numTanks, q, j) && b.tanks[ids[j]].owner == q;
      HealthOnlyFalls(b, setup, c, ids[j]);
    }
  }

  lemma HealthOnlyFalls(b: Board, setup: bool, c: CommandHead, i: nat)
    requires Ready(b) && i < |b.tanks| && ServerApply(b, setup, c).Applied?
    requires b.tanks[i].owner != NOTHING
    ensures |ServerApply(b, setup, c).board.tanks| == |b.tanks|
    ensures ServerApply(b, setup, c).board.tanks[i].health <= b.tanks[i].health
    ensures b.tanks[i].owner == c.sender ==> ServerApply(b, setup, c).board.tanks[i].health == b.tanks[i].health
  {
    if c.kind == Place {
      assert b.GoodPlayer(c.sender);
      SlotFits(b, c.sender, b.players[c.sender].placed);
    } else {
      CommandedIsPlaced(b, c);
    }
  }

  /** A player's own command leaves the player's own live tanks alive. */
  lemma CommandSparesSender(b: Board, c: CommandHead)
    requires Ready(b) && c.sender < |b.players|
    requires ServerApply(b, false, c).Applied? && LiveTanks(b, c.sender) > 0
    ensures ServerApply(b, false, c).board.Slotted() && LiveTanks(ServerApply(b, false, c).board, c.sender) > 0
  {
    ServerKeepsBoard(b, false, c);
    var b' := ServerApply(b, false, c).board;
    assert b.GoodPlayer(c.sender) && b'.GoodPlayer(c.sender);
    var ids := b.players[c.sender].tankIds;
    PlayKeepsPlayers(b, c);
    var j :| 0 <= j < |ids| && ids[j] != NOTHING && b.tanks[ids[j]].health > 0;
    assert ids[j] == Slot(b.numTanks, c.sender, j) && b.tanks[ids[j]].owner == c.sender;
    HealthOnlyFalls(b, false, c, ids[j]);
  }

  lemma PlayKeepsPlayers(b: Board, c: CommandHead)
    requires Ready(b) && ServerApply(b, false, c).Applied?
    ensures ServerApply(b, false, c).board.players == b.players
  {
  }

  // ---------------------------------------------------------------- before the views

  ghost predicate TurnsSoFar(m: Match)
    requires m.Shaped()
  {
    && (forall i :: 0 <= i < |m.turns| ==> GoodTurn(m.turns[i]))
    && 1 <= m.fuel <= TURN_PLAYER_FUEL
    && (m.phase == Setup ==> m.turns == [] && m.fuel == TURN_PLAYER_FUEL)
    && (m.phase == Play && LiveTanks(m.board, m.cur) == 0 ==> m.fuel == TURN_PLAYER_FUEL)
    && (m.phase == Play ==> exists s: nat :: PlayedInTurns(m, s))
  }

  /** What compute_all_views must find to leave a fair state. */
  ghost predicate PreFair(m: Match) {
    Unviewed(m) && !m.corrupt && SetupFair(m) && DeadMeansUnarmed(m) && OpenTurn(m) && TurnsSoFar(m)
  }

  lemma ViewsAreFair(m: Match)
    requires PreFair(m)
    ensures Fair(Views(m, 0)) && Fair(Post(Views(m, 0)))
  {
    ViewsAreSane(m);
    ViewsDrop(m, 0);
    var m1 := Views(m, 0);
    if m.phase == Play {
      var s: nat :| PlayedInTurns(m, s);
      assert PlayedInTurns(m1, s);
    }
    PostIsFair(m1);
  }

  // ---------------------------------------------------------------- accepted commands

  lemma PlacementCounts(b: Board, c: CommandHead)
    requires Ready(b) && c.sender < |b.players| && ServerApply(b, true, c).Applied?
    ensures var b' := ServerApply(b, true, c).board;
            |b'.players| == |b.players| && b'.numTanks == b.numTanks
            && (forall p :: 0 <= p < |b.players| ==>
                  b'.players[p].placed == b.players[p].placed + (if p == c.sender then 1 else 0))
  {
  }

  lemma PlacementIsFair(m: Match, c: CommandHead, b: Board)
    requires m.Shaped() && SetupFair(m) && m.phase == Setup && m.alive[m.cur] && c.kind == Place
    requires Ready(b) && SameMap(m.board, b)
    requires forall p :: 0 <= p < |b.players| ==>
               b.players[p].placed == m.board.players[p].placed + (if p == m.cur then 1 else 0)
    ensures SetupFair(Record(m, c, b))
  {
    var m1 := Record(m, c, b);
    var before, after := PlacedCounts(m), PlacedCounts(m1);
    assert after == before[m.cur := before[m.cur] + 1];
    SumPlace(m.alive, before, m.cur);
    PlacedAreBounded(m1);
    var k :| InRound(m.alive, before, m.cur, k);
    RoundGoesOn(m.alive, before, m.alive, after, m.cur, m.Next(), k);
  }

  lemma RecordPlacementIsPreFair(m: Match, c: CommandHead)
    requires Fair(m) && m.phase == Setup && m.claimed && m.alive[m.cur] && c.sender == m.cur
    requires ServerApply(m.board, true, c).Applied?
    ensures Ready(ServerApply(m.board, true, c).board) && SameMap(m.board, ServerApply(m.board, true, c).board)
    ensures PreFair(Record(m, c, ServerApply(m.board, true, c).board))
  {
    var b := ServerApply(m.board, true, c).board;
    ServerKeepsBoard(m.board, true, c);
    AcceptedKind(m.board, true, c);
    RecordIsUnviewed(m, c, b);
    PlacementCounts(m.board, c);
    PlacementIsFair(m, c, b);
    forall q | 0 <= q < |m.alive| && !m.alive[q]
      ensures LiveTanks(b, q) == 0
    {
      CommandRevivesNobody(m.board, true, c, q);
    }
  }

  lemma MoveIsInTurns(m: Match, c: CommandHead, b: Board)
    requires m.Shaped() && TurnStructure(m) && m.phase == Play && c.sender == m.cur && c.kind != Place
    requires Ready(b) && SameMap(m.board, b)
    ensures exists s: nat :: PlayedInTurns(Record(m, c, b), s)
    ensures forall i :: 0 <= i < |Record(m, c, b).turns| ==> GoodTurn(Record(m, c, b).turns[i])
  {
    var s: nat :| PlayedInTurns(m, s);
    var n := TURN_PLAYER_FUEL - m.fuel;
    InTurnsMove(m.history, s, m.turns, m.cur, n, c);
    if m.fuel - 1 <= 0 {
      InTurnsDone(m.history + [c], s, m.turns, m.cur, n + 1, false, m.Next());
    }
    assert PlayedInTurns(Record(m, c, b), s);
  }

  lemma RecordMoveIsPreFair(m: Match, c: CommandHead)
    requires Fair(m) && m.phase == Play && m.claimed && m.alive[m.cur] && c.sender == m.cur
    requires ServerApply(m.board, false, c).Applied?
    ensures Ready(ServerApply(m.board, false, c).board) && SameMap(m.board, ServerApply(m.board, false, c).board)
    ensures PreFair(Record(m, c, ServerApply(m.board, false, c).board))
  {
    var b := ServerApply(m.board, false, c).board;
    ServerKeepsBoard(m.board, false, c);
    AcceptedKind(m.board, false, c);
    RecordIsUnviewed(m, c, b);
    CommandSparesSender(m.board, c);
    MoveIsInTurns(m, c, b);
    forall q | 0 <= q < |m.alive| && !m.alive[q]
      ensures LiveTanks(b, q) == 0
    {
      CommandRevivesNobody(m.board, false, c, q);
    }
  }

  lemma PostIsFair(m: Match)
    requires Fair(m)
    ensures Fair(Post(m))
  {
    var m1 := Post(m);
    assert PlacedCounts(m1) == PlacedCounts(m);
    if m.phase != Setup {
      var s: nat :| PlayedInTurns(m, s);
      assert PlayedInTurns(m1, s);
    }
  }

  lemma LiveIsCounted(b: Board, i: nat)
    requires b.Slotted() && i < |b.tanks| && b.tanks[i].health > 0
    ensures b.tanks[i].owner < |b.players| && LiveTanks(b, b.tanks[i].owner) > 0
  {
    assert b.GoodTank(i);
    var p, k := SlotOf(b, i);
    assert b.GoodPlayer(p);
    assert b.players[p].tankIds[k] == i;
  }

  /** The dead have nothing to command. */
  lemma UnarmedMayNot(b: Board, c: CommandHead)
    requires Ready(b) && c.sender < |b.players| && LiveTanks(b, c.sender) == 0
    ensures !MayCommand(b, c)
  {
    if c.tankId < |b.tanks| && b.tanks[c.tankId].health > 0 {
      LiveIsCounted(b, c.tankId);
    }
  }

  /** A placement that takes effect gives its player a live tank. */
  lemma PlacementArms(b: Board, c: CommandHead)
    requires Ready(b) && c.kind == Place && c.sender < |b.players| && ServerApply(b, true, c).Applied?
    ensures ServerApply(b, true, c).board.Slotted() && LiveTanks(ServerApply(b, true, c).board, c.sender) > 0
  {
    ServerKeepsBoard(b, true, c);
    var b' := ServerApply(b, true, c).board;
    var k := b.players[c.sender].placed;
    assert b.GoodPlayer(c.sender) && b'.GoodPlayer(c.sender);
    SlotFits(b, c.sender, k);
    assert b'.players[c.sender].tankIds[k] == Slot(b.numTanks, c.sender, k);
    assert b'.tanks[Slot(b.numTanks, c.sender, k)].health == INITIAL_HEALTH;
  }

  lemma AcceptedIsFair(m: Match, c: CommandHead)
    requires Fair(m) && m.phase != Concluded && m.claimed && c.sender == m.cur
    requires ServerApply(m.board, m.phase == Setup, c).Applied? && m.alive[m.cur]
    ensures Fair(Accept(m, c))
  {
    if m.phase == Setup {
      RecordPlacementIsPreFair(m, c);
    } else {
      RecordMoveIsPreFair(m, c);
    }
    ViewsAreFair(Record(m, c, ServerApply(m.board, m.phase == Setup, c).board));
  }

  /** A command that does not slip in is refused or accepted from a living player. */
  lemma UnlessSlipping(m: Match, c: CommandHead)
    requires Fair(m) && m.phase != Concluded && c.sender == m.cur && !Slipping(m, c)
    ensures var o := ServerApply(m.board, m.phase == Setup, c); o.Rejected? || (o.Applied? && m.alive[m.cur])
  {
    if m.phase == Setup {
      assert m.board.GoodPlayer(m.cur);
    } else if !m.alive[m.cur] {
      UnarmedMayNot(m.board, c);
    }
  }

  /** A placement that takes effect passes the turn on. */
  lemma PlacementPasses(m: Match, c: CommandHead)
    requires m.Shaped() && m.phase == Setup && c.kind == Place && ServerApply(m.board, true, c).Applied?
    ensures Accept(m, c) ==
            m.(board := ServerApply(m.board, true, c).board, history := m.history + [c],
               placedTotal := Wrap8(m.placedTotal + 1), cur := m.Next(), pending := m.pending + 1)
  {
    ServerKeepsBoard(m.board, true, c);
    ViewsDrop(Record(m, c, ServerApply(m.board, true, c).board), 0);
  }

  lemma SlipOutcome(m: Match, c: CommandHead)
    requires m.Shaped() && Slipping(m, c) && c.sender == m.cur
    ensures var o := ServerApply(m.board, true, c);
            if m.board.players[m.cur].placed == m.board.numTanks then o.OutOfRange? else o.Applied? && !m.alive[m.cur]
  {
    assert m.board.GoodPlayer(m.cur);
  }

  lemma SlippingIsUnfair(m: Match, c: CommandHead)
    requires m.Shaped() && Slipping(m, c) && c.sender == m.cur
    ensures !Fair(Accept(m, c))
  {
    SlipOutcome(m, c);
    if ServerApply(m.board, true, c).Applied? {
      PlacementArms(m.board, c);
      PlacementPasses(m, c);
    }
  }

  /** A command of the current player leaves a fair state exactly when it does not slip in. */
  lemma AcceptIsFairIff(m: Match, c: CommandHead)
    requires Fair(m) && m.phase != Concluded && m.claimed && c.sender == m.cur
    ensures Fair(Accept(m, c)) <==> !Slipping(m, c)
  {
    if Slipping(m, c) {
      SlippingIsUnfair(m, c);
    } else {
      UnlessSlipping(m, c);
      if ServerApply(m.board, m.phase == Setup, c).Applied? {
        AcceptedIsFair(m, c);
      } else {
        PostIsFair(m);
      }
    }
  }

  // ---------------------------------------------------------------- eliminations

  lemma CutBeforeView(m: Match, i: nat)
    requires m.Shaped() && i < |m.alive|
    ensures CutTurn(ViewOf(m, i)) == ViewOf(CutTurn(m), i)
  {
  }

  /** The views do not look at whose turn it is. */
  lemma {:induction false} CutBeforeViews(m: Match, i: nat)
    requires m.Shaped()
    ensures CutTurn(Views(m, i)) == Views(CutTurn(m), i)
    decreases |m.alive| - i
  {
    if i < |m.alive| {
      CutBeforeView(m, i);
      CutBeforeViews(ViewOf(m, i), i + 1);
    }
  }

  lemma RemovedSetup(m: Match, p: nat)
    requires m.Shaped() && SetupFair(m) && m.phase == Setup && p < |m.alive| && m.alive[p]
    ensures var m1 := Remove(m, p);
            && PlacedCounts(m1) == PlacedCounts(m)
            && m1.placedTotal == SumAlive(m1.alive, PlacedCounts(m1))
  {
    SumWithout(m, Remove(m, p), p);
  }

  lemma SumWithout(m: Match, m1: Match, p: nat)
    requires m.Shaped() && SetupFair(m) && m.phase == Setup && p < |m.alive| && m.alive[p]
    requires m1.Shaped() && m1.alive == m.alive[p := false] && m1.board.players == m.board.players
    requires m1.placedTotal == Wrap8(m.placedTotal - m.board.players[p].placed)
    ensures PlacedCounts(m1) == PlacedCounts(m) && m1.placedTotal == SumAlive(m1.alive, PlacedCounts(m1))
  {
    assert PlacedCounts(m1) == PlacedCounts(m);
    SumFall(m.alive, PlacedCounts(m), p);
    PlacedAreBounded(m1);
  }

  lemma RemovedCounts(m: Match, p: nat, q: nat)
    requires m.Shaped() && p < |m.alive| && q < |m.alive|
    ensures LiveTanks(Remove(m, p).board, q) == if q == p then 0 else LiveTanks(m.board, q)
  {
    EliminateCounts(m.board, p, q);
  }

  lemma OthersRemovedIsPreFair(m: Match, p: nat)
    requires Fair(m) && m.phase != Concluded && p < |m.alive| && m.alive[p] && p != m.cur
    ensures PreFair(Remove(m, p))
  {
    var m1 := Remove(m, p);
    RemoveIsUnviewed(m, p);
    forall q | 0 <= q < |m.alive|
      ensures LiveTanks(m1.board, q) == if q == p then 0 else LiveTanks(m.board, q)
    {
      RemovedCounts(m, p, q);
    }
    EliminateKeeps(m.board, p);
    if m.phase == Setup {
      OthersRemovedSetup(m, p);
    } else {
      var s: nat :| PlayedInTurns(m, s);
      assert PlayedInTurns(m1, s);
    }
  }

  lemma OthersRemovedSetup(m: Match, p: nat)
    requires m.Shaped() && SetupFair(m) && m.phase == Setup && p < |m.alive| && m.alive[p]
    ensures SetupFair(Remove(m, p))
  {
    var m1 := Remove(m, p);
    RemovedSetup(m, p);
    var k :| InRound(m.alive, PlacedCounts(m), m.cur, k);
    assert InRound(m1.alive, PlacedCounts(m1), m1.cur, k);
  }

  lemma CutIsInTurns(m: Match, m1: Match)
    requires m.Shaped() && TurnStructure(m) && m.phase == Play && m1.Shaped()
    requires m1.history == m.history && m1.turns == m.turns && m1.cur == m.cur && m1.fuel == m.fuel && m1.phase == Play
    ensures exists s: nat :: PlayedInTurns(CutTurn(m1), s)
    ensures forall i :: 0 <= i < |CutTurn(m1).turns| ==> GoodTurn(CutTurn(m1).turns[i])
  {
    var s: nat :| PlayedInTurns(m, s);
    InTurnsDone(m.history, s, m.turns, m.cur, TURN_PLAYER_FUEL - m.fuel, true, m1.Next());
    assert PlayedInTurns(CutTurn(m1), s);
  }

  lemma CutIsUnviewed(m: Match)
    requires Unviewed(m)
    ensures Unviewed(CutTurn(m))
  {
  }

  lemma CutSetup(m: Match)
    requires m.Shaped() && SetupFair(m) && m.phase == Setup && m.alive[m.cur]
    ensures SetupFair(CutTurn(Remove(m, m.cur)))
  {
    var m2 := CutTurn(Remove(m, m.cur));
    RemovedSetup(m, m.cur);
    assert PlacedCounts(m2) == PlacedCounts(m);
    var k :| InRound(m.alive, PlacedCounts(m), m.cur, k);
    RoundGoesOn(m.alive, PlacedCounts(m), m2.alive, PlacedCounts(m2), m.cur, m2.cur, k);
  }

  lemma CurrentRemovedIsPreFair(m: Match)
    requires Fair(m) && m.phase != Concluded && m.alive[m.cur]
    ensures PreFair(CutTurn(Remove(m, m.cur)))
  {
    var m1 := Remove(m, m.cur);
    var m2 := CutTurn(m1);
    RemoveIsUnviewed(m, m.cur);
    CutIsUnviewed(m1);
    forall q | 0 <= q < |m.alive|
      ensures LiveTanks(m2.board, q) == if q == m.cur then 0 else LiveTanks(m.board, q)
    {
      RemovedCounts(m, m.cur, q);
    }
    assert DeadMeansUnarmed(m2) && OpenTurn(m2);
    if m.phase == Setup {
      CutSetup(m);
    } else {
      CutIsInTurns(m, m1);
    }
  }

  lemma EliminationIsFair(m: Match, p: nat)
    requires Fair(m) && m.phase != Concluded && p < |m.alive|
    ensures Fair(HandleElimination(m, p))
  {
    if m.alive[p] {
      if p == m.cur {
        CurrentRemovedIsPreFair(m);
        CutBeforeViews(Remove(m, p), 0);
        ViewsAreFair(CutTurn(Remove(m, p)));
      } else {
        OthersRemovedIsPreFair(m, p);
        ViewsAreFair(Remove(m, p));
      }
    }
  }

  // ---------------------------------------------------------------- start_turn

  lemma RequeuedIsFair(m: Match, m': Match)
    requires Fair(m) && m'.Shaped() && m' == m.(claimed := m'.claimed, queues := m'.queues)
    requires m.claimed ==> m'.claimed
    ensures Fair(m')
  {
    assert PlacedCounts(m') == PlacedCounts(m);
    if m.phase != Setup {
      var s: nat :| PlayedInTurns(m, s);
      assert PlayedInTurns(m', s);
    }
  }

  /** Setup ends: play starts with no turn played. */
  lemma EnterPlayIsFair(m: Match)
    requires Fair(m) && m.phase == Setup && (m.armed.Some? ==> m.armed.value.1 < m.turnId)
    ensures Fair(EnterPlay(m))
  {
    var m1 := m.(phase := Play, cur := 0, fuel := TURN_PLAYER_FUEL);
    assert m1.history[|m1.history|..] == [];
    assert PlayedInTurns(m1, |m1.history|);
    ViewsAreFair(m1);
  }

  lemma NextTurnIsFair(m: Match)
    requires Fair(m) && m.pending > 0
    ensures Fair(m.(pending := m.pending - 1, turnId := m.turnId + 1, claimed := false))
  {
    var m1 := m.(pending := m.pending - 1, turnId := m.turnId + 1, claimed := false);
    if m.phase == Setup {
      assert PlacedCounts(m1) == PlacedCounts(m);
    } else {
      var s: nat :| PlayedInTurns(m, s);
      assert PlayedInTurns(m1, s);
    }
  }

  lemma NewTurnIsFair(m: Match)
    requires Fair(m) && m.pending > 0
    ensures Fair(NewTurn(m)) && (m.armed.Some? ==> m.armed.value.1 < NewTurn(m).turnId)
    ensures !SetupOver(NewTurn(m)) && NewTurn(m).armed == m.armed && !NewTurn(m).claimed
  {
    NextTurnIsFair(m);
    if SetupOver(m) {
      EnterPlayIsFair(m.(pending := m.pending - 1, turnId := m.turnId + 1, claimed := false));
    }
  }

  lemma ConcludeIsFair(m: Match)
    requires Fair(m) && m.remaining <= 1 && (m.armed.Some? ==> m.armed.value.1 < m.turnId)
    ensures Fair(Conclude(m))
  {
    ConcludeIsSane(m);
    var m1 := Conclude(m);
    if m.phase == Setup {
      assert m.history[|m.history|..] == [];
      assert PlayedInTurns(m1, |m.history|);
    } else {
      var s: nat :| PlayedInTurns(m, s);
      assert PlayedInTurns(m1, s);
    }
  }

  lemma SkipIsFair(m: Match)
    requires Fair(m) && m.phase != Concluded && !m.alive[m.cur] && (m.armed.Some? ==> m.armed.value.1 < m.turnId)
    ensures Fair(Post(Views(m.(cur := m.Next()), 0)))
  {
    var m1 := m.(cur := m.Next());
    assert PlacedCounts(m1) == PlacedCounts(m);
    if m.phase == Setup {
      var k :| InRound(m.alive, PlacedCounts(m), m.cur, k);
      RoundGoesOn(m.alive, PlacedCounts(m), m.alive, PlacedCounts(m), m.cur, m1.cur, k);
    } else {
      var s: nat :| PlayedInTurns(m, s);
      assert PlayedInTurns(m1, s);
    }
    ViewsAreFair(m1);
  }

  lemma OpenIsFair(m: Match)
    requires Fair(m) && m.phase != Concluded && m.alive[m.cur] && !SetupOver(m)
    ensures Fair(m.(armed := Some((m.cur, m.turnId))))
  {
    var m1 := m.(armed := Some((m.cur, m.turnId)));
    assert PlacedCounts(m1) == PlacedCounts(m);
    if m.phase == Setup {
      SetupEndsExactly(m);
      PlacedAreBounded(m);
      var k :| InRound(m.alive, PlacedCounts(m), m.cur, k);
      assert PlacedCounts(m)[m.cur] == k;
    } else {
      var s: nat :| PlayedInTurns(m, s);
      assert PlayedInTurns(m1, s);
    }
  }

  /** The command on_player_move_arrived would take slips in. */
  predicate SlipsNow(m: Match, t: nat)
    requires m.Shaped()
  {
    && t == m.turnId && !m.claimed && m.queues[m.cur] != []
    && Slipping(m, m.queues[m.cur][Top(m.queues[m.cur])].head)
  }

  lemma MoveArrivedIsFairIff(m: Match, t: nat)
    requires Fair(m) && m.phase != Concluded
    ensures Fair(MoveArrived(m, t)) <==> !SlipsNow(m, t)
  {
    if t == m.turnId && !m.claimed {
      if m.queues[m.cur] == [] {
        RequeuedIsFair(m, m.(claimed := true));
      } else {
        var i := Top(m.queues[m.cur]);
        var m1 := m.(claimed := true, queues := m.queues[m.cur := Without(m.queues[m.cur], i)]);
        RequeuedIsFair(m, m1);
        assert m.queues[m.cur][i] in m.queues[m.cur];
        AcceptIsFairIff(m1, m.queues[m.cur][i].head);
      }
    }
  }

  lemma StartTurnIsFair(m: Match)
    requires Fair(m) && m.pending > 0
    ensures Fair(StartTurn(m))
  {
    NewTurnIsFair(m);
    var m1 := NewTurn(m);
    if m1.remaining <= 1 {
      ConcludeIsFair(m1);
    } else if !m1.alive[m1.cur] {
      SkipIsFair(m1);
    } else {
      OpenIsFair(m1);
      var m2 := m1.(armed := Some((m1.cur, m1.turnId)));
      if m2.queues[m2.cur] != [] {
        MoveArrivedIsFairIff(m2, m2.turnId);
      }
    }
  }

  // ---------------------------------------------------------------- runs

  /** The turns start_turn opens for a living player never let a command slip in: waiting for one's
      own start_turn is enough. */
  lemma OpenedNeverSlips(m: Match, e: Event)
    requires Fair(m) && Opened(m)
    ensures !Slips(m, e)
  {
  }

  lemma DeliveryIsFairIff(m: Match, e: Event)
    requires Fair(m) && e.Deliver?
    ensures Fair(Step(m, e)) <==> !Slips(m, e)
  {
    var p, t := e.player, e.turn;
    if p < |m.alive| && m.phase != Concluded && t == m.turnId && |m.queues[p]| < MAX_QUEUE_SIZE {
      var q := QueueWith(m, e);
      var m1 := m.(queues := m.queues[p := q]);
      RequeuedIsFair(m, m1);
      if p == m.cur {
        MoveArrivedIsFairIff(m1, t);
      }
    }
  }

  /** A step keeps setup fair, the turns in order and the dead unarmed exactly when no placement slips
      in; in particular no other step runs a placement past its player's tank list. */
  lemma StepIsFairIff(m: Match, e: Event)
    requires Fair(m) && Enabled(m, e)
    ensures Fair(Step(m, e)) <==> !Slips(m, e)
  {
    match e
    case RunTurn => StartTurnIsFair(m);
    case Deliver(_, _, _) => DeliveryIsFairIff(m, e);
    case TimerFires(t, expired) =>
      if t == m.turnId && !m.claimed && expired {
        RequeuedIsFair(m, m.(claimed := true));
        EliminationIsFair(m.(claimed := true), m.cur);
      }
    case Forfeit(p) =>
      if p < |m.alive| && m.phase != Concluded {
        EliminationIsFair(m, p);
      }
    case Sync(p) =>
      if p < |m.alive| && m.phase != Concluded {
        RequeuedIsFair(m, m.(queues := m.queues[p := []]));
      }
  }

  /** No event of the run lets a placement slip in. */
  ghost predicate NoSlip(m: Match, events: seq<Event>)
    requires Sane(m) && CanRun(m, events)
    decreases |events|
  {
    events == [] ||
    (!Slips(m, events[0]) && (StepIsSane(m, events[0]); NoSlip(Step(m, events[0]), events[1..])))
  }

  ghost predicate FairThroughout(m: Match, events: seq<Event>)
    requires Sane(m) && CanRun(m, events)
    decreases |events|
  {
    Fair(m) && (events == [] || (StepIsSane(m, events[0]); FairThroughout(Step(m, events[0]), events[1..])))
  }

  /** A run goes through fair states only exactly when no placement slips in.  So in every state of such
      a run: living players' placement counts differ by at most one and setup ends exactly when all are
      placed; no placement leaves its player's slice; the history is placements followed by turns of at
      most three moves by one sender; the dead own no live tank. */
  lemma {:induction false} RunIsFairIff(m: Match, events: seq<Event>)
    requires Fair(m) && CanRun(m, events)
    ensures FairThroughout(m, events) <==> NoSlip(m, events)
    ensures NoSlip(m, events) ==> Fair(After(m, events))
    decreases |events|
  {
    if events != [] {
      StepIsSane(m, events[0]);
      StepIsFairIff(m, events[0]);
      if !Slips(m, events[0]) {
        RunIsFairIff(Step(m, events[0]), events[1..]);
      }
    }
  }

  lemma MovesKeepPhase(m: Match, t: nat)
    requires m.Shaped()
    ensures MoveArrived(m, t).phase == m.phase
  {
  }

  /** In setup every accepted command finds its turn opened for its sender. */
  ghost predicate Waits(m: Match, events: seq<Event>)
    requires Sane(m) && CanRun(m, events)
    decreases |events|
  {
    events == [] ||
    ((Accepting(m, events[0]) && m.phase == Setup ==> Opened(m)) &&
     (StepIsSane(m, events[0]); Waits(Step(m, events[0]), events[1..])))
  }

  /** If in setup everyone waits for their own start_turn, nothing slips in and the run stays fair. */
  lemma {:induction false} WaitingIsFair(m: Match, events: seq<Event>)
    requires Fair(m) && CanRun(m, events) && Waits(m, events)
    ensures NoSlip(m, events) && Fair(After(m, events))
    decreases |events|
  {
    if events != [] {
      if Opened(m) {
        OpenedNeverSlips(m, events[0]);
      }
      StepIsSane(m, events[0]);
      StepIsFairIff(m, events[0]);
      WaitingIsFair(Step(m, events[0]), events[1..]);
    }
  }

  lemma SetupStaysOver(m: Match, e: Event)
    requires m.Shaped() && Enabled(m, e) && m.phase != Setup
    ensures Step(m, e).phase != Setup
  {
    match e
    case RunTurn =>
      var m1 := NewTurn(m);
      MovesKeepPhase(m1.(armed := Some((m1.cur, m1.turnId))), m1.turnId);
    case Deliver(p, c, t) =>
      if p < |m.alive| {
        MovesKeepPhase(m.(queues := m.queues[p := m.queues[p] + [c.(head := c.head.(sender := p))]]), t);
      }
    case _ =>
  }

  /** Once setup is over nothing slips in, whatever the events and whenever they come. */
  lemma {:induction false} PlayIsFair(m: Match, events: seq<Event>)
    requires Fair(m) && m.phase != Setup && CanRun(m, events)
    ensures Fair(After(m, events))
    decreases |events|
  {
    if events != [] {
      StepIsSane(m, events[0]);
      StepIsFairIff(m, events[0]);
      SetupStaysOver(m, events[0]);
      PlayIsFair(Step(m, events[0]), events[1..]);
    }
  }
}
