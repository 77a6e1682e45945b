/** The match instance as the source keeps it: one object whose handlers update its fields in place.
    Each handler is tied to the step function of the same name. */
module MatchInstances {
  import opened Basics
  import opened Boards
  import opened Commands
  import opened Eliminations
  import opened GameInstances
  import opened Matches
  import opened Ledger

  class MatchInstance {
    const game: GameInstance
    var alive: seq<bool>
    var order: seq<int>
    var elim: int
    var remaining: int
    var cur: nat
    var fuel: int
    var phase: Phase
    var placedTotal: u8
    var history: seq<CommandHead>
    var turnId: nat
    var claimed: bool
    var queues: seq<seq<Command>>
    /** start_turn handlers posted to the strand. */
    var pending: nat
    var armed: Option<(nat, nat)>
    var corrupt: bool
    ghost var turns: seq<Turn>

    ghost function State(): Match
      reads this, game, game.cells, game.tanks
    {
      Match(game.Contents(), alive, order, elim, remaining, cur, fuel, phase, placedTotal, history,
            turnId, claimed, queues, pending, armed, corrupt, turns)
    }

    /** What every handler keeps: the ledger, "alive means armed" and the shape of the history. */
    ghost predicate Valid()
      reads this, game, game.cells, game.tanks
    {
      Sane(State())
    }

    /** `claimed` is left uninitialised by the source until the first start_turn. */
    constructor (game: GameInstance, claimed: bool)
      requires Ready(game.Contents()) && game.Contents().Anchored() && 2 <= |game.players|
      requires forall p :: 0 <= p < |game.players| ==> game.players[p].placed == 0
      ensures this.game == game && Initial(State()) && Valid()
    {
      var n := |game.players|;
      this.game := game;
      alive, order := seq(n, _ => true), seq(n, _ => 0);
      elim, remaining := 0, n;
      cur, fuel, phase, placedTotal := 0, TURN_PLAYER_FUEL, Setup, 0;
      history, turns := [], [];
      turnId, this.claimed, armed, corrupt := 0, claimed, None, false;
      queues := seq(n, _ => []);
      pending := 1;
      new;
      InitialIsSane(State());
    }

    /** The count of live tanks that computing a player's view hands back. */
    method LiveTanksOf(p: nat) returns (live: nat)
      requires Ready(game.Contents()) && p < |game.players|
      ensures live == LiveTanks(game.Contents(), p)
    {
      var view;
      view, live := game.ComputeView(p);
    }

    method ComputeView(p: nat)
      requires State().Shaped() && p < |alive|
      modifies `alive, `order, `elim, `remaining
      ensures State() == ViewOf(old(State()), p)
    {
      if alive[p] {
        var live := LiveTanksOf(p);
        if live == 0 && phase != Setup {
          Fall(p);
        }
      }
    }

    method ComputeAllViews()
      requires State().Shaped()
      modifies `alive, `order, `elim, `remaining
      ensures State() == Views(old(State()), 0)
    {
      for i := 0 to |alive|
        invariant State().Shaped() && |alive| == |old(alive)|
        invariant Views(State(), i) == Views(old(State()), 0)
      {
        ComputeView(i);
      }
    }

    /** Each tank on the list is destroyed and the cell it lies on emptied. */
    method DestroyTanks(ids: seq<u8>)
      requires game.Contents().Sized() && KillList(game.Contents(), ids)
      modifies game.cells, game.tanks
      ensures game.Contents() == KillListed(old(game.Contents()), ids)
    {
      ghost var b := game.Contents();
      for i := 0 to |ids|
        invariant game.players == b.players && KillList(b, ids[..i])
        invariant forall j :: 0 <= j < game.tanks.Length ==>
                    game.tanks[j] == if j in ids[..i] then b.tanks[j].(health := 0) else b.tanks[j]
        invariant forall c :: 0 <= c < game.cells.Length ==>
                    game.cells[c] == if LiesOn(b, ids[..i], c) then b.cells[c].(occupant := NOTHING) else b.cells[c]
      {
        var id := ids[i];
        assert ids[..i + 1] == ids[..i] + [id];
        game.tanks[id] := game.tanks[id].(health := 0);
        LiesOnNext(b, ids, i);
        game.SetOccupant(game.tanks[id].pos, NOTHING);
      }
      assert ids[..|ids|] == ids;
    }

    /** The ledger part of an elimination. */
    method Fall(p: nat)
      requires p < |alive| == |order|
      modifies `alive, `order, `elim, `remaining
      ensures State() == Matches.Fall(old(State()), p)
    {
      remaining := remaining - 1;
      alive := alive[p := false];
      order := order[p := elim];
      elim := elim + 1;
    }

    method DestroyTanksOf(p: nat)
      requires Ready(game.Contents()) && p < |game.players|
      modifies game.cells, game.tanks
      ensures game.Contents() == Eliminate(old(game.Contents()), p)
    {
      PlacedIdsAreOwn(game.Contents(), p);
      assert game.Contents().GoodPlayer(p);
      DestroyTanks(game.players[p].tankIds[..game.players[p].placed]);
    }

    /** An eliminated player leaves the queues, the ledger and, in setup, the total of placed tanks. */
    method LeaveLedger(p: nat)
      requires State().Shaped() && p < |alive|
      modifies `queues, `placedTotal, `alive, `order, `elim, `remaining
      ensures State() == Matches.Fall(old(State()), p).(queues := old(queues)[p := []], placedTotal :=
                if phase == Setup then Wrap8(old(placedTotal) - game.players[p].placed) else old(placedTotal))
    {
      queues := queues[p := []];
      Fall(p);
      if phase == Setup {
        placedTotal := Wrap8(placedTotal - game.players[p].placed);
      }
    }

    method RemovePlayer(p: nat)
      requires State().Shaped() && p < |alive|
      modifies this, game.cells, game.tanks
      ensures State() == Remove(old(State()), p)
    {
      LeaveLedger(p);
      DestroyTanksOf(p);
    }

    method CutTurn()
      requires State().Shaped()
      modifies `cur, `fuel, `turns
      ensures State() == Matches.CutTurn(old(State()))
    {
      turns := if phase == Play then turns + [Turn(cur, TURN_PLAYER_FUEL - fuel, true)] else turns;
      cur := if cur + 1 == |alive| then 0 else cur + 1;
      fuel := TURN_PLAYER_FUEL;
    }

    method HandleElimination(p: nat)
      requires State().Shaped() && p < |alive|
      modifies this, game.cells, game.tanks
      ensures State() == Matches.HandleElimination(old(State()), p)
    {
      if !alive[p] {
        return;
      }
      RemovePlayer(p);
      ComputeAllViews();
      if p == cur {
        CutTurn();
      }
      pending := pending + 1;
    }

    /** The commands to a tank: everything apply_command does except placing. */
    method CommandTank(c: CommandHead) returns (valid: bool, status: bool)
      requires Ready(game.Contents()) && c.kind != Place
      modifies game.cells, game.tanks
      ensures AnsweredBy(ServerApply(old(game.Contents()), false, c),
                         old(game.Contents()), game.Contents(), valid, status)
    {
      valid, status := false, false;
      if c.tankId >= game.tanks.Length {
        return;
      }
      var tank := game.tanks[c.tankId];
      if tank.health == 0 || tank.owner != c.sender {
        return;
      }
      CommandedIsPlaced(game.Contents(), c);
      match c.kind {
        case Move =>
          valid := true;
          status := game.MoveTank(c.tankId, c.first != 0);
        case RotateTank =>
          game.RotateTank(c.tankId, c.first);
          valid, status := true, true;
        case RotateBarrel =>
          game.RotateTankBarrel(c.tankId, c.first);
          valid, status := true, true;
        case Fire =>
          if tank.loaded {
            valid := true;
            status := game.FireTank(c.tankId);
          }
        case Load =>
          if !tank.loaded {
            valid := true;
            game.LoadTank(c.tankId);
          }
        case _ =>
      }
    }

    /** The placement checks of apply_command.  A placement past the player's tank list is undefined
        behaviour; here it is noticed and nothing is done. */
    method PlaceByCommand(c: CommandHead) returns (valid: bool)
      requires Ready(game.Contents()) && c.kind == Place
      modifies `corrupt, game`players, game.cells, game.tanks
      ensures corrupt == (old(corrupt) || ServerApply(old(game.Contents()), true, c).OutOfRange?)
      ensures AnsweredBy(ServerApply(old(game.Contents()), true, c),
                         old(game.Contents()), game.Contents(), valid, false)
    {
      valid := false;
      var pos := Vec2(c.first, c.second);
      if pos.x > game.width - 1 || pos.y > game.height - 1 {
        return;
      }
      if game.mask[game.Offset(pos)] != c.sender || game.cells[game.Offset(pos)].kind == Terrain
         || game.cells[game.Offset(pos)].occupant != NOTHING || c.tankId >= 8 {
        return;
      }
      if c.sender < |game.players| && game.players[c.sender].placed < game.numTanks {
        assert game.Contents().GoodPlayer(c.sender);
        game.PlaceTank(pos, c.sender, c.tankId);
        valid := true;
      } else {
        corrupt := true;
      }
    }

    method ApplyCommand(c: CommandHead) returns (valid: bool, status: bool)
      requires Ready(game.Contents())
      modifies `corrupt, `placedTotal, game`players, game.cells, game.tanks
      ensures var o := ServerApply(old(game.Contents()), phase == Setup, c);
              && AnsweredBy(o, old(game.Contents()), game.Contents(), valid, status)
              && corrupt == (old(corrupt) || o.OutOfRange?)
              && placedTotal == if o.Applied? && c.kind == Place then Wrap8(old(placedTotal) + 1) else old(placedTotal)
    {
      valid, status := false, false;
      if c.kind == Place {
        if phase == Setup {
          valid := PlaceByCommand(c);
          if valid {
            placedTotal := Wrap8(placedTotal + 1);
          }
        }
      } else if phase != Setup {
        valid, status := CommandTank(c);
      }
    }

    /** The turn or a unit of fuel is used up. */
    method UseTurn()
      requires cur < |alive|
      modifies `cur, `fuel, `turns
      ensures State() == Matches.UseTurn(old(State()))
    {
      if phase == Setup {
        cur := if cur + 1 == |alive| then 0 else cur + 1;
        return;
      }
      fuel := fuel - 1;
      if fuel <= 0 {
        turns := turns + [Turn(cur, TURN_PLAYER_FUEL - fuel, false)];
        cur := if cur + 1 == |alive| then 0 else cur + 1;
        fuel := TURN_PLAYER_FUEL;
      }
    }

    /** The history and the turn, after apply_command has changed the board of match m. */
    method RecordMove(c: CommandHead, ghost m: Match)
      requires m.Shaped() && Ready(game.Contents()) && SameMap(m.board, game.Contents())
      requires State() == m.(board := game.Contents(), placedTotal := placedTotal)
      requires placedTotal == if c.kind == Place then Wrap8(m.placedTotal + 1) else m.placedTotal
      modifies `history, `cur, `fuel, `turns
      ensures State() == Record(m, c, game.Contents())
    {
      history := history + [c];
      assert State() == m.(board := game.Contents(), history := m.history + [c], placedTotal := placedTotal);
      UseTurn();
    }

    method TryCommand(c: CommandHead) returns (valid: bool)
      requires State().Shaped() && !corrupt
      modifies this, game`players, game.cells, game.tanks
      ensures Tried(ServerApply(old(game.Contents()), old(phase) == Setup, c), old(State()), c, valid, State())
    {
      ghost var m := State();
      var status;
      valid, status := ApplyCommand(c);
      if valid {
        ServerKeepsBoard(m.board, phase == Setup, c);
        RecordMove(c, m);
      }
    }

    method Accept(c: CommandHead)
      requires State().Shaped() && !corrupt
      modifies this, game`players, game.cells, game.tanks
      ensures State() == Matches.Accept(old(State()), c)
    {
      ghost var m := State();
      var valid := TryCommand(c);
      AcceptAfterTrying(m, c, valid, State());
      if corrupt {
        return;
      }
      if valid {
        ComputeAllViews();
      }
      pending := pending + 1;
    }

    /** Taking the best command off the current player's priority queue. */
    method Pop() returns (c: CommandHead)
      requires State().Shaped() && queues[cur] != []
      modifies `queues
      ensures var q := old(queues[cur]);
              c == q[Top(q)].head && c.sender == cur
              && State() == old(State()).(queues := old(queues)[cur := Without(q, Top(q))]) && State().Shaped()
    {
      var i := Top(queues[cur]);
      c := queues[cur][i].head;
      assert SentBy(queues[cur], cur) && queues[cur][i] in queues[cur];
      queues := queues[cur := Without(queues[cur], i)];
    }

    /** on_player_move_arrived. */
    method MoveArrived(t: nat)
      requires State().Shaped() && !corrupt
      modifies this, game`players, game.cells, game.tanks
      ensures State() == Matches.MoveArrived(old(State()), t)
    {
      if t != turnId || claimed {
        return;
      }
      claimed := true;
      if phase == Concluded || queues[cur] == [] {
        return;
      }
      var c := Pop();
      Accept(c);
    }

    method ConcludeGame()
      requires |alive| == |order|
      modifies `phase, `order
      ensures State() == Conclude(old(State()))
    {
      phase := Concluded;
      ghost var was := order;
      for p := 0 to |alive|
        invariant |order| == |was| && phase == Concluded
        invariant forall q :: 0 <= q < |was| ==> order[q] == if q < p && alive[q] then elim else was[q]
      {
        if alive[p] {
          order := order[p := elim];
        }
      }
      assert order == FinalOrder(alive, was, elim);
    }

    method EnterPlay()
      requires State().Shaped()
      modifies this
      ensures State() == Matches.EnterPlay(old(State()))
    {
      ghost var m := State();
      phase, cur, fuel := Play, 0, TURN_PLAYER_FUEL;
      assert State() == m.(phase := Play, cur := 0, fuel := TURN_PLAYER_FUEL);
      ComputeAllViews();
    }

    /** The start of a turn up to the switch to play. */
    method NewTurn()
      requires State().Shaped() && pending > 0
      modifies this
      ensures State() == Matches.NewTurn(old(State()))
    {
      ghost var m := State();
      pending := pending - 1;
      turnId := turnId + 1;
      claimed := false;
      assert State() == m.(pending := m.pending - 1, turnId := m.turnId + 1, claimed := false);
      if phase == Setup && placedTotal >= remaining * game.numTanks {
        EnterPlay();
      }
    }

    method Skip()
      requires State().Shaped()
      modifies this
      ensures State() == Matches.Skip(old(State()))
    {
      ghost var m := State();
      cur := if cur + 1 == |alive| then 0 else cur + 1;
      assert State() == m.(cur := m.Next());
      ComputeAllViews();
      pending := pending + 1;
    }

    method Open()
      requires State().Shaped() && !corrupt
      modifies this, game`players, game.cells, game.tanks
      ensures State() == Matches.Open(old(State()))
    {
      armed := Some((cur, turnId));
      if queues[cur] != [] {
        MoveArrived(turnId);
      }
    }

    method StartTurn()
      requires Valid() && pending > 0 && !corrupt
      modifies this, game`players, game.cells, game.tanks
      ensures State() == Step(old(State()), RunTurn) && Valid()
    {
      StepIsSane(State(), RunTurn);
      NewTurn();
      if remaining <= 1 {
        ConcludeGame();
      } else if !alive[cur] {
        Skip();
      } else {
        Open();
      }
    }

    /** The handler receive_command posts, with the turn ID it captured. */
    method ReceiveCommand(p: nat, c: Command, t: nat)
      requires Valid() && !corrupt
      modifies this, game`players, game.cells, game.tanks
      ensures State() == Step(old(State()), Deliver(p, c, t)) && Valid()
    {
      StepIsSane(State(), Deliver(p, c, t));
      if p >= |alive| || phase == Concluded || t != turnId {
        return;
      }
      if |queues[p]| >= MAX_QUEUE_SIZE {
        return;
      }
      queues := queues[p := queues[p] + [c.(head := c.head.(sender := p))]];
      if p == cur {
        MoveArrived(t);
      }
    }

    /** The handler of an expiring timer, with the turn ID it captured; a cancelled timer has not
        expired. */
    method TimerHandler(t: nat, expired: bool)
      requires Valid() && !corrupt && Enabled(State(), TimerFires(t, expired))
      modifies this, game.cells, game.tanks
      ensures State() == Step(old(State()), TimerFires(t, expired)) && Valid()
    {
      StepIsSane(State(), TimerFires(t, expired));
      if t != turnId || claimed {
        return;
      }
      if expired {
        claimed := true;
        HandleElimination(cur);
      }
    }

    method ForfeitBy(p: nat)
      requires Valid() && !corrupt
      modifies this, game.cells, game.tanks
      ensures State() == Step(old(State()), Forfeit(p)) && Valid()
    {
      StepIsSane(State(), Forfeit(p));
      if p < |alive| && phase != Concluded {
        HandleElimination(p);
      }
    }

    method SyncPlayer(p: nat)
      requires Valid() && !corrupt
      modifies `queues
      ensures State() == Step(old(State()), Sync(p)) && Valid()
    {
      StepIsSane(State(), Sync(p));
      if p < |alive| && phase != Concluded {
        queues := queues[p := []];
      }
    }
  }

  /** How apply_command answers: the flags it returns and the board it leaves. */
  ghost predicate AnsweredBy(o: Outcome, before: Board, after: Board, valid: bool, status: bool) {
    match o
    case Rejected => !valid && !status && after == before
    case OutOfRange => !valid && !status && after == before
    case Applied(b, s) => valid && after == b && s == Flag(status)
  }

  /** What trying a command leaves: the match as it was, with the damage noticed, or with the command
      on record. */
  ghost predicate Tried(o: Outcome, m: Match, c: CommandHead, valid: bool, m': Match)
    requires m.Shaped()
  {
    match o
    case Rejected => !valid && m' == m
    case OutOfRange => !valid && m' == m.(corrupt := true)
    case Applied(b, _) => valid && Ready(b) && SameMap(m.board, b) && m' == Record(m, c, b)
  }

  lemma AcceptAfterTrying(m: Match, c: CommandHead, valid: bool, m': Match)
    requires m.Shaped() && !m.corrupt && Tried(ServerApply(m.board, m.phase == Setup, c), m, c, valid, m')
    ensures m'.Shaped()
    ensures Accept(m, c) == if m'.corrupt then m' else Post(if valid then Views(m', 0) else m')
  {
  }

  lemma LiesOnNext(b: Board, ids: seq<u8>, i: nat)
    requires b.Sized() && KillList(b, ids) && i < |ids|
    ensures KillList(b, ids[..i]) && KillList(b, ids[..i + 1])
    ensures forall c: nat :: LiesOn(b, ids[..i + 1], c) <==> LiesOn(b, ids[..i], c) || c == b.Idx(b.tanks[ids[i]].pos)
  {
    forall c: nat
      ensures LiesOn(b, ids[..i + 1], c) <==> LiesOn(b, ids[..i], c) || c == b.Idx(b.tanks[ids[i]].pos)
    {
      if c == b.Idx(b.tanks[ids[i]].pos) {
        assert ids[..i + 1][i] == ids[i];
      }
      if LiesOn(b, ids[..i], c) {
        var k :| 0 <= k < i && b.Idx(b.tanks[ids[..i][k]].pos) == c;
        assert ids[..i + 1][k] == ids[k];
      }
    }
  }
}
