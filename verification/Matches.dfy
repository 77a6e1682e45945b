/** One match as a state machine.  Handlers run one at a time on the match's strand; `pending` counts
    the start_turn handlers that are posted and have not run yet, of which there can be several. */
module Matches {
  import opened Basics
  import opened Boards
  import opened Commands
  import opened Eliminations

  const TURN_PLAYER_FUEL := 3
  const MAX_QUEUE_SIZE := 8

  datatype Phase = Setup | Play | Concluded

  datatype Command = Command(head: CommandHead, sequence: nat)

  /** A record of one player's turn in play, kept for stating what a history looks like: how many
      moves were accepted, and whether the turn ended by elimination rather than by running dry. */
  datatype Turn = Turn(sender: nat, moves: int, cut: bool)

  predicate SentBy(queue: seq<Command>, player: nat) {
    forall c :: c in queue ==> c.head.sender == player
  }

  datatype Match = Match(
    board: Board,
    alive: seq<bool>,
    /** elimination_order, elim_counter_ and remaining_players. */
    order: seq<int>, elim: int, remaining: int,
    cur: nat, fuel: int, phase: Phase,
    /** tanks_placed. */
    placedTotal: u8,
    history: seq<CommandHead>,
    turnId: nat, claimed: bool,
    queues: seq<seq<Command>>,
    pending: nat,
    /** The player and turn of the last timer start_turn armed. */
    armed: Option<(nat, nat)>,
    /** A placement has run past its player's tank list: undefined behaviour, the run ends here. */
    corrupt: bool,
    turns: seq<Turn>)
  {
    ghost predicate Shaped() {
      && Ready(board)
      && 2 <= |board.players| == |alive| == |order| == |queues|
      && cur < |alive|
      && forall p {:trigger queues[p]} :: 0 <= p < |queues| ==> SentBy(queues[p], p)
    }

    /** (current_player + 1) % n_players_. */
    function Next(): (p: nat)
      requires cur < |alive|
      ensures p < |alive|
    {
      if cur + 1 == |alive| then 0 else cur + 1
    }
  }

  function Post(m: Match): Match {
    m.(pending := m.pending + 1)
  }

  /** A player drops out: the ledger part of handle_elimination and of compute_all_views. */
  function Fall(m: Match, p: nat): Match
    requires p < |m.alive| == |m.order|
  {
    m.(alive := m.alive[p := false], order := m.order[p := m.elim], elim := m.elim + 1, remaining := m.remaining - 1)
  }

  /** One turn of the loop of compute_all_views: in play, a living player without a live tank drops out. */
  function ViewOf(m: Match, i: nat): (m': Match)
    requires m.Shaped() && i < |m.alive|
    ensures m'.Shaped() && m' == m.(alive := m'.alive, order := m'.order, elim := m'.elim, remaining := m'.remaining)
    ensures |m'.alive| == |m.alive|
  {
    if m.alive[i] && LiveTanks(m.board, i) == 0 && m.phase != Setup then Fall(m, i) else m
  }

  /** compute_all_views from player i on. */
  function Views(m: Match, i: nat): (m': Match)
    requires m.Shaped()
    ensures m'.Shaped() && m' == m.(alive := m'.alive, order := m'.order, elim := m'.elim, remaining := m'.remaining)
    ensures |m'.alive| == |m.alive|
    decreases |m.alive| - i
  {
    if i >= |m.alive| then m else Views(ViewOf(m, i), i + 1)
  }

  /** Exactly the living players without a live tank drop out, and in setup nobody does. */
  lemma {:induction false} ViewsDrop(m: Match, i: nat)
    requires m.Shaped()
    ensures m.phase == Setup ==> Views(m, i) == m
    ensures forall p :: 0 <= p < |m.alive| ==>
              (Views(m, i).alive[p] <==> m.alive[p] && (p < i || m.phase == Setup || LiveTanks(m.board, p) > 0))
    decreases |m.alive| - i
  {
    if i < |m.alive| {
      ViewsDrop(ViewOf(m, i), i + 1);
    }
  }

  /** The player drops out, the queue is dropped, and the player's tanks are destroyed. */
  function Remove(m: Match, p: nat): (m': Match)
    requires m.Shaped() && p < |m.alive|
    ensures m'.Shaped()
  {
    EliminateKeeps(m.board, p);
    Fall(m, p).(queues := m.queues[p := []],
                placedTotal := if m.phase == Setup then Wrap8(m.placedTotal - m.board.players[p].placed)
                               else m.placedTotal,
                board := Eliminate(m.board, p))
  }

  /** The current player's turn passes on; in play the record of turns says it was cut short. */
  function CutTurn(m: Match): (m': Match)
    requires m.Shaped()
    ensures m'.Shaped()
  {
    m.(cur := m.Next(), fuel := TURN_PLAYER_FUEL,
       turns := if m.phase == Play then m.turns + [Turn(m.cur, TURN_PLAYER_FUEL - m.fuel, true)] else m.turns)
  }

  function HandleElimination(m: Match, p: nat): (m': Match)
    requires m.Shaped() && p < |m.alive|
    ensures m'.Shaped()
  {
    if !m.alive[p] then m
    else
      var m1 := Views(Remove(m, p), 0);
      Post(if p == m.cur then CutTurn(m1) else m1)
  }

  /** The index of the queued command with the least sequence number, the earliest among equals. */
  function Top(queue: seq<Command>): (i: nat)
    requires queue != []
    ensures i < |queue| && forall j :: 0 <= j < |queue| ==> queue[i].sequence <= queue[j].sequence
  {
    if |queue| == 1 then 0
    else
      var i := Top(queue[..|queue| - 1]);
      if queue[|queue| - 1].sequence < queue[i].sequence then |queue| - 1 else i
  }

  function Without(queue: seq<Command>, i: nat): (q: seq<Command>)
    requires i < |queue|
    ensures forall c :: c in q ==> c in queue
  {
    queue[..i] + queue[i + 1..]
  }

  /** What an accepted command costs: the setup turn, or one unit of fuel; the turn passes on after a
      placement or when the fuel is gone. */
  function UseTurn(m: Match): (m': Match)
    requires m.cur < |m.alive|
    ensures m'.cur < |m'.alive|
  {
    if m.phase == Setup then m.(cur := m.Next())
    else if m.fuel - 1 > 0 then m.(fuel := m.fuel - 1)
    else m.(cur := m.Next(), fuel := TURN_PLAYER_FUEL,
            turns := m.turns + [Turn(m.cur, TURN_PLAYER_FUEL - m.fuel + 1, false)])
  }

  /** An accepted command has changed the board and goes into the history. */
  function Record(m: Match, c: CommandHead, b: Board): (m': Match)
    requires m.Shaped() && Ready(b) && SameMap(m.board, b)
    ensures m'.Shaped()
  {
    UseTurn(m.(board := b, history := m.history + [c],
               placedTotal := if c.kind == Place then Wrap8(m.placedTotal + 1) else m.placedTotal))
  }

  /** A command of the current player, after it has been taken from the queue. */
  function Accept(m: Match, c: CommandHead): (m': Match)
    requires m.Shaped()
    ensures m'.Shaped()
  {
    match ServerApply(m.board, m.phase == Setup, c)
    case Rejected => Post(m)
    case OutOfRange => m.(corrupt := true)
    case Applied(b, _) =>
      ServerKeepsBoard(m.board, m.phase == Setup, c);
      Post(Views(Record(m, c, b), 0))
  }

  /** on_player_move_arrived. */
  function MoveArrived(m: Match, t: nat): Match
    requires m.Shaped()
  {
    if t != m.turnId || m.claimed then m
    else if m.phase == Concluded || m.queues[m.cur] == [] then m.(claimed := true)
    else
      var i := Top(m.queues[m.cur]);
      Accept(m.(claimed := true, queues := m.queues[m.cur := Without(m.queues[m.cur], i)]), m.queues[m.cur][i].head)
  }

  /** The ranking with every player still marked alive ranked last. */
  function FinalOrder(alive: seq<bool>, order: seq<int>, elim: int): (r: seq<int>)
    requires |alive| == |order|
    ensures |r| == |order|
    ensures forall p :: 0 <= p < |r| ==> r[p] == if alive[p] then elim else order[p]
  {
    seq(|order|, p requires 0 <= p < |order| => if alive[p] then elim else order[p])
  }

  function Conclude(m: Match): Match
    requires |m.alive| == |m.order|
  {
    m.(phase := Concluded, order := FinalOrder(m.alive, m.order, m.elim))
  }

  predicate SetupOver(m: Match) {
    m.phase == Setup && m.placedTotal >= m.remaining * m.board.numTanks
  }

  /** Setup ends: the first player is to move with a full tank of fuel, and everyone sees it. */
  function EnterPlay(m: Match): (m': Match)
    requires m.Shaped()
    ensures m'.Shaped()
  {
    Views(m.(phase := Play, cur := 0, fuel := TURN_PLAYER_FUEL), 0)
  }

  /** The first part of start_turn: a new turn ID, and the switch to play. */
  function NewTurn(m: Match): (m': Match)
    requires m.Shaped() && m.pending > 0
    ensures m'.Shaped()
  {
    var m1 := m.(pending := m.pending - 1, turnId := m.turnId + 1, claimed := false);
    if SetupOver(m) then EnterPlay(m1) else m1
  }

  /** The turn of a player who is out passes on. */
  function Skip(m: Match): (m': Match)
    requires m.Shaped()
    ensures m'.Shaped()
  {
    Post(Views(m.(cur := m.Next()), 0))
  }

  /** A living player's turn: the timer is armed, and a command already queued is taken at once. */
  function Open(m: Match): Match
    requires m.Shaped()
  {
    var m1 := m.(armed := Some((m.cur, m.turnId)));
    if m1.queues[m1.cur] != [] then MoveArrived(m1, m1.turnId) else m1
  }

  function StartTurn(m: Match): Match
    requires m.Shaped() && m.pending > 0
  {
    var m1 := NewTurn(m);
    if m1.remaining <= 1 then Conclude(m1)
    else if !m1.alive[m1.cur] then Skip(m1)
    else Open(m1)
  }

  // ---------------------------------------------------------------- events

  /** A handler running on the strand.  Deliver and TimerFires carry the turn ID they captured when
      they were created; a delivered command is attributed to the player that sent it. */
  datatype Event =
    | RunTurn
    | Deliver(player: nat, command: Command, turn: nat)
    | TimerFires(timerTurn: nat, expired: bool)
    | Forfeit(quitter: nat)
    | Sync(returning: nat)

  /** A start_turn runs only if one is posted, and only timers that were armed fire. */
  predicate Enabled(m: Match, e: Event) {
    && (e.RunTurn? ==> m.pending > 0)
    && (e.TimerFires? ==> e.timerTurn < m.turnId || (m.armed.Some? && m.armed.value.1 == m.turnId == e.timerTurn))
  }

  function Step(m: Match, e: Event): Match
    requires m.Shaped() && Enabled(m, e)
  {
    if m.corrupt then m
    else match e
         case RunTurn => StartTurn(m)
         case Deliver(p, c, t) =>
           if p >= |m.alive| || m.phase == Concluded || t != m.turnId || |m.queues[p]| >= MAX_QUEUE_SIZE then m
           else
             var m1 := m.(queues := m.queues[p := m.queues[p] + [c.(head := c.head.(sender := p))]]);
             if p == m.cur then MoveArrived(m1, t) else m1
         case TimerFires(t, expired) =>
           if t != m.turnId || m.claimed || !expired then m
           else HandleElimination(m.(claimed := true), m.cur)
         case Forfeit(p) =>
           if p >= |m.alive| || m.phase == Concluded then m else HandleElimination(m, p)
         case Sync(p) =>
           if p >= |m.alive| || m.phase == Concluded then m else m.(queues := m.queues[p := []])
  }

  /** A match about to run its first start_turn on an empty board. */
  ghost predicate Initial(m: Match) {
    && m.Shaped() && m.board.Anchored()
    && (forall p :: 0 <= p < |m.board.players| ==> m.board.players[p].placed == 0)
    && (forall p :: 0 <= p < |m.alive| ==> m.alive[p])
    && (forall p :: 0 <= p < |m.queues| ==> m.queues[p] == [])
    && m.elim == 0 && m.remaining == |m.alive| && m.cur == 0 && m.fuel == TURN_PLAYER_FUEL
    && m.phase == Setup && m.placedTotal == 0 && m.history == [] && m.turnId == 0 && m.pending == 1
    && m.armed == None && !m.corrupt && m.turns == []
  }
}
